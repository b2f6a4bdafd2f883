/** The alert command language: a scanner for `parse_alert_command` and the grammar it decides. */
module Command {
  import opened Text
  import opened Decimal
  import opened Records

  // ---- the grammar ------------------------------------------------------------------

  datatype Derivation = Derivation(
    lead: string, keyword: string, gap: string, token: string, beforeOp: string, op: char,
    afterOp: string, number: string, beforePercent: string, percent: string, trail: string)

  function EndText(d: Derivation): string {
    d.beforePercent + (d.percent + d.trail)
  }

  function OperatorText(d: Derivation): string {
    [d.op] + (d.afterOp + (d.number + EndText(d)))
  }

  function WordText(d: Derivation): string {
    d.token + (d.beforeOp + OperatorText(d))
  }

  function CoreText(d: Derivation): string {
    d.keyword + (d.gap + WordText(d))
  }

  ghost predicate GoodEnd(d: Derivation) {
    All(d.beforePercent, IsSpace) && (d.percent == "" || d.percent == "%") && All(d.trail, IsSpace)
  }

  ghost predicate GoodOperator(d: Derivation) {
    (d.op == '<' || d.op == '>') && All(d.afterOp, IsSpace) && IsDecimal(d.number) && GoodEnd(d)
  }

  ghost predicate GoodWord(d: Derivation) {
    d.token != [] && All(d.token, IsWord) && All(d.beforeOp, IsSpace) && GoodOperator(d)
  }

  ghost predicate GoodCore(d: Derivation) {
    Lower(d.keyword) == "/alert" && d.gap != [] && All(d.gap, IsSpace) && GoodWord(d)
  }

  /** The language of the pattern in `parse_alert_command`: optional white space, the keyword in
      any case, white space, a word, an operator, a decimal number and an optional percent sign,
      with optional white space between them and at the end. */
  ghost predicate Derives(text: string, d: Derivation) {
    All(d.lead, IsSpace) && GoodCore(d) && text == d.lead + CoreText(d)
  }

  // ---- the scanner ------------------------------------------------------------------

  datatype CommandMatch = CommandMatch(token: string, op: char, number: string)

  predicate AtEnd(v: string) {
    var w := SkipSpace(v);
    if w != [] && w[0] == '%' then SkipSpace(w[1..]) == [] else w == []
  }

  function NumberAndEnd(u: string): Option<string> {
    var n := DecimalSpan(u);
    if n > 0 && AtEnd(u[n..]) then Some(u[..n]) else None
  }

  function OperatorAndRest(t: string): Option<(char, string)> {
    if t == [] || (t[0] != '<' && t[0] != '>') then None else
      match NumberAndEnd(SkipSpace(t[1..]))
      case None => None
      case Some(number) => Some((t[0], number))
  }

  function WordAndRest(u: string): Option<CommandMatch> {
    var n := Span(u, IsWord);
    if n == 0 then None else
      match OperatorAndRest(SkipSpace(u[n..]))
      case None => None
      case Some(r) => Some(CommandMatch(u[..n], r.0, r.1))
  }

  function MatchCommand(text: string): Option<CommandMatch> {
    var t := SkipSpace(text);
    if |t| < 6 || Lower(t[..6]) != "/alert" || Span(t[6..], IsSpace) == 0 then None
    else WordAndRest(SkipSpace(t[6..]))
  }

  // ---- every derivation is found ------------------------------------------------------

  lemma SkipLead(a: string, b: string)
    requires All(a, IsSpace) && (b == [] || !IsSpace(b[0]))
    ensures SkipSpace(a + b) == b
  {
    SpanStops(a, b, IsSpace);
  }

  lemma EndComplete(d: Derivation)
    requires GoodEnd(d)
    ensures AtEnd(EndText(d))
  {
    if d.percent == "%" {
      SkipLead(d.beforePercent, d.percent + d.trail);
      assert (d.percent + d.trail)[1..] == d.trail + [];
      SkipLead(d.trail, []);
    } else {
      AllConcat(d.beforePercent, d.trail, IsSpace);
      assert EndText(d) == d.beforePercent + d.trail + [];
      SkipLead(d.beforePercent + d.trail, []);
    }
  }

  lemma EndStart(d: Derivation)
    requires GoodEnd(d)
    ensures EndText(d) == [] || (!IsDigit(EndText(d)[0]) && EndText(d)[0] != '.')
  {
    if d.beforePercent == [] && d.percent == "" {
      assert EndText(d) == d.trail;
    }
  }

  lemma NumberComplete(d: Derivation)
    requires GoodEnd(d) && IsDecimal(d.number)
    ensures NumberAndEnd(d.number + EndText(d)) == Some(d.number)
    ensures d.number != [] && IsDigit(d.number[0])
  {
    var whole, fraction :| DecimalParts(d.number, whole, fraction);
    EndComplete(d);
    EndStart(d);
    DecimalSpanStops(d.number, whole, fraction, EndText(d));
    var u := d.number + EndText(d);
    assert u[..|d.number|] == d.number && u[|d.number|..] == EndText(d);
    assert d.number[0] == whole[0];
  }

  lemma OperatorComplete(d: Derivation)
    requires GoodOperator(d)
    ensures OperatorAndRest(OperatorText(d)) == Some((d.op, d.number))
  {
    NumberComplete(d);
    var u := d.number + EndText(d);
    assert u[0] == d.number[0];
    SkipLead(d.afterOp, u);
    assert OperatorText(d)[1..] == d.afterOp + u;
  }

  lemma WordComplete(d: Derivation)
    requires GoodWord(d)
    ensures WordAndRest(WordText(d)) == Some(CommandMatch(d.token, d.op, d.number))
  {
    var rest := d.beforeOp + OperatorText(d);
    SpanStops(d.token, rest, IsWord);
    assert WordText(d)[..|d.token|] == d.token;
    SkipLead(d.beforeOp, OperatorText(d));
    OperatorComplete(d);
  }

  /** Every derivation is found, with its own token, operator and number: the grammar is
      unambiguous and the scanner accepts all of it. */
  lemma MatchComplete(text: string, d: Derivation)
    requires Derives(text, d)
    ensures MatchCommand(text) == Some(CommandMatch(d.token, d.op, d.number))
  {
    var t := CoreText(d);
    var w := d.gap + WordText(d);
    assert LowerChar(d.keyword[0]) == '/' && t[0] == d.keyword[0];
    SkipLead(d.lead, t);
    assert t[..6] == d.keyword && t[6..] == w;
    assert WordText(d)[0] == d.token[0];
    SpanStops(d.gap, WordText(d), IsSpace);
    WordComplete(d);
  }

  // ---- every match is a derivation ----------------------------------------------------

  lemma EndSound(v: string) returns (d: Derivation)
    requires AtEnd(v)
    ensures GoodEnd(d) && v == EndText(d)
  {
    var beforePercent := SpaceSplit(v);
    var w := SkipSpace(v);
    if w == [] {
      d := Derivation("", "", "", "", "", ' ', "", "", beforePercent, "", "");
    } else {
      var trail := SpaceSplit(w[1..]);
      d := Derivation("", "", "", "", "", ' ', "", "", beforePercent, "%", trail);
      assert w == "%" + trail;
    }
  }

  lemma NumberSound(u: string) returns (d: Derivation)
    requires NumberAndEnd(u).Some?
    ensures GoodEnd(d) && IsDecimal(d.number) && u == d.number + EndText(d)
  {
    var n := DecimalSpan(u);
    DecimalSpanSound(u);
    var e := EndSound(u[n..]);
    d := e.(number := u[..n]);
    assert EndText(d) == EndText(e);
    assert u == u[..n] + u[n..];
  }

  lemma OperatorSound(t: string) returns (d: Derivation)
    requires OperatorAndRest(t).Some?
    ensures GoodOperator(d) && t == OperatorText(d)
  {
    var afterOp := SpaceSplit(t[1..]);
    var e := NumberSound(SkipSpace(t[1..]));
    d := e.(op := t[0], afterOp := afterOp);
    assert EndText(d) == EndText(e);
    assert t == [t[0]] + t[1..];
  }

  lemma OperatorKept(e: Derivation, token: string, beforeOp: string)
    ensures var d := e.(token := token, beforeOp := beforeOp);
            OperatorText(d) == OperatorText(e) && (GoodOperator(d) <==> GoodOperator(e))
  {}

  lemma WordSound(u: string) returns (d: Derivation)
    requires WordAndRest(u).Some?
    ensures GoodWord(d) && u == WordText(d)
  {
    hide OperatorAndRest, GoodOperator, IsWord, IsSpace, SkipSpace;
    var n := Span(u, IsWord);
    var beforeOp := SpaceSplit(u[n..]);
    var e := OperatorSound(SkipSpace(u[n..]));
    d := e.(token := u[..n], beforeOp := beforeOp);
    OperatorKept(e, u[..n], beforeOp);
    assert u == u[..n] + u[n..];
  }

  lemma WordKept(e: Derivation, lead: string, keyword: string, gap: string)
    ensures var d := e.(lead := lead, keyword := keyword, gap := gap);
            WordText(d) == WordText(e) && (GoodWord(d) <==> GoodWord(e))
  {}

  lemma MatchSound(text: string) returns (d: Derivation)
    requires MatchCommand(text).Some?
    ensures Derives(text, d)
  {
    hide WordAndRest, GoodWord, WordText, IsSpace, SkipSpace, Lower;
    var lead := SpaceSplit(text);
    var t := SkipSpace(text);
    var gap := SpaceSplit(t[6..]);
    var e := WordSound(SkipSpace(t[6..]));
    d := e.(lead := lead, keyword := t[..6], gap := gap);
    WordKept(e, lead, t[..6], gap);
    assert t == t[..6] + t[6..];
  }

  // ---- parse_alert_command ----------------------------------------------------------

  /** Metric key and display name of a lower-case token. */
  function MetricOfToken(token: string): Option<(string, string)> {
    if token == "cpu" then Some(("cpu_percent", "CPU"))
    else if token == "memory" || token == "mem" then Some(("memory_percent", "Memory"))
    else if token == "disk" then Some(("disk_percent", "Disk"))
    else if token == "rx" || token == "netrx" || token == "net_rx" || token == "networkrx" || token == "network_rx"
    then Some(("network_rx_kbps", "Network RX"))
    else if token == "tx" || token == "nettx" || token == "net_tx" || token == "networktx" || token == "network_tx"
    then Some(("network_tx_kbps", "Network TX"))
    else None
  }

  function ParseAlertCommand(text: string): Option<AlertRule> {
    match MatchCommand(text)
    case None => None
    case Some(m) => BuildRule(m, Trim(text))
  }

  function BuildRule(m: CommandMatch, raw: string): Option<AlertRule> {
    match MetricOfToken(Lower(m.token))
    case None => None
    case Some(metric) => Some(AlertRule(raw, metric.0, metric.1, Unsigned(m.number), m.op))
  }

  function Unsigned(number: string): Double {
    SignedReal(false, Magnitude(number))
  }

  /** The words a command may use, in small letters. */
  const WORDS := ["cpu", "memory", "mem", "disk", "rx", "netrx", "net_rx", "networkrx", "network_rx",
                  "tx", "nettx", "net_tx", "networktx", "network_tx"]

  ghost predicate KnownWord(word: string) {
    word in WORDS
  }

  ghost predicate EndsIn(word: string, c: char, d: char) {
    |word| >= 2 && word[|word| - 2] == c && word[|word| - 1] == d
  }

  ghost predicate IsShare(key: string) {
    key == "cpu_percent" || key == "memory_percent" || key == "disk_percent"
  }

  /** Metric and display name belong to the word: for a share the word begins the display name, in small
      letters, which begins the key; for a rate the word ends in the direction that key and display name
      carry. */
  ghost predicate NamedBy(word: string, key: string, display: string) {
    && RealMetricKey(key)
    && (IsShare(key) ==> (display == "CPU" || display == "Memory" || display == "Disk") && word <= Lower(display) <= key)
    && (key == "network_rx_kbps" ==> EndsIn(word, 'r', 'x') && display == "Network RX")
    && (key == "network_tx_kbps" ==> EndsIn(word, 't', 'x') && display == "Network TX")
  }

  lemma KeysDiffer()
    ensures !IsShare("network_rx_kbps") && !IsShare("network_tx_kbps") && "network_rx_kbps" != "network_tx_kbps"
    ensures forall key :: IsShare(key) ==> key != "network_rx_kbps" && key != "network_tx_kbps"
  {
    assert "network_rx_kbps"[8] == 'r' && "network_tx_kbps"[8] == 't';
  }

  lemma ShareNames(word: string)
    ensures word == "cpu" ==> word <= Lower("CPU") <= "cpu_percent"
    ensures word == "memory" || word == "mem" ==> word <= Lower("Memory") <= "memory_percent"
    ensures word == "disk" ==> word <= Lower("Disk") <= "disk_percent"
  {
    assert Lower("CPU") == "cpu" && Lower("Memory") == "memory" && Lower("Disk") == "disk";
    hide Lower;
  }

  lemma RateNames(word: string)
    ensures word == "rx" || word == "netrx" || word == "net_rx" || word == "networkrx" || word == "network_rx" ==>
              EndsIn(word, 'r', 'x')
    ensures word == "tx" || word == "nettx" || word == "net_tx" || word == "networktx" || word == "network_tx" ==>
              EndsIn(word, 't', 'x')
  {}

  lemma KnownTokens(token: string)
    ensures MetricOfToken(token).Some? <==> KnownWord(token)
  {}

  lemma NamedTokens(token: string)
    requires MetricOfToken(token).Some?
    ensures NamedBy(token, MetricOfToken(token).value.0, MetricOfToken(token).value.1)
  {
    KeysDiffer();
    hide Lower, EndsIn;
    ShareNames(token);
    RateNames(token);
  }

  /** The parser accepts exactly the texts of the grammar whose word, in any case, is one of the fourteen; and
      the rule has the metric and display name of the word, the sign, the number's value and the trimmed
      text. */
  lemma ParserDecidesGrammar(text: string)
    ensures ParseAlertCommand(text).Some? <==> exists d :: Derives(text, d) && KnownWord(Lower(d.token))
    ensures forall d :: Derives(text, d) && KnownWord(Lower(d.token)) ==>
              var r := ParseAlertCommand(text).value;
              && NamedBy(Lower(d.token), r.metricKey, r.displayMetric) && r.comparison == d.op
              && r.threshold == Unsigned(d.number) && r.rawCommand == Trim(text)
  {
    hide MatchCommand, Derives, Lower, Trim, MetricOfToken, KnownWord, NamedBy, Magnitude;
    if MatchCommand(text).Some? {
      var d := MatchSound(text);
      MatchComplete(text, d);
      KnownTokens(Lower(d.token));
    }
    forall d | Derives(text, d)
      ensures MatchCommand(text) == Some(CommandMatch(d.token, d.op, d.number))
      ensures MetricOfToken(Lower(d.token)).Some? <==> KnownWord(Lower(d.token))
      ensures KnownWord(Lower(d.token)) ==>
                NamedBy(Lower(d.token), MetricOfToken(Lower(d.token)).value.0, MetricOfToken(Lower(d.token)).value.1)
    {
      MatchComplete(text, d);
      KnownTokens(Lower(d.token));
      if KnownWord(Lower(d.token)) {
        NamedTokens(Lower(d.token));
      }
    }
  }

  /** Every accepted rule names one of the five metrics, so the 0.0 fallback of
      `metric_value_for_key` is never taken for a stored rule. */
  lemma AcceptedRuleIsReal(text: string)
    requires ParseAlertCommand(text).Some?
    ensures var r := ParseAlertCommand(text).value;
            RealMetricKey(r.metricKey) && (r.comparison == '<' || r.comparison == '>')
  {
    var d := MatchSound(text);
    MatchComplete(text, d);
    TokenKeyIsReal(Lower(d.token));
  }

  lemma TokenKeyIsReal(token: string)
    ensures MetricOfToken(token).Some? ==> RealMetricKey(MetricOfToken(token).value.0)
  {}

  // ---- white space around a command is irrelevant ------------------------------------

  lemma LastOfConcat(a: string, b: string)
    requires b != []
    ensures (a + b)[|a + b| - 1] == b[|b| - 1]
  {}

  /** A derivation without trailing white space ends in a digit or a percent sign. */
  lemma CoreEndsSolid(d: Derivation)
    requires GoodCore(d) && d.trail == "" && (d.percent == "" ==> d.beforePercent == "")
    ensures Solid(CoreText(d))
  {
    hide Lower, LowerChar, All, IsSpace, IsWord, IsDecimal, IsDigit;
    var body := d.number + EndText(d);
    NumberEndsSolid(d);
    KeywordStartsSolid(d.keyword);
    LastOfConcat(d.afterOp, body);
    LastOfConcat([d.op], d.afterOp + body);
    LastOfConcat(d.beforeOp, OperatorText(d));
    LastOfConcat(d.token, d.beforeOp + OperatorText(d));
    LastOfConcat(d.gap, WordText(d));
    LastOfConcat(d.keyword, d.gap + WordText(d));
  }

  lemma KeywordStartsSolid(keyword: string)
    requires Lower(keyword) == "/alert"
    ensures keyword != [] && !IsSpace(keyword[0])
  {
    assert LowerChar(keyword[0]) == '/';
  }

  lemma NumberEndsSolid(d: Derivation)
    requires IsDecimal(d.number) && d.trail == "" && (d.percent == "" ==> d.beforePercent == "")
    requires d.percent == "" || d.percent == "%"
    ensures var body := d.number + EndText(d);
            body != [] && !IsSpace(body[|body| - 1])
  {
    var whole, fraction :| DecimalParts(d.number, whole, fraction);
    if d.percent == "" {
      assert d.number + EndText(d) == d.number;
    }
  }

  /** Trailing white space moves outward through the layers of the text. */
  lemma PeelTail(d: Derivation, e: Derivation, tail: string)
    requires EndText(d) == EndText(e) + tail
    requires e.number == d.number && e.afterOp == d.afterOp && e.op == d.op && e.beforeOp == d.beforeOp
    requires e.token == d.token && e.gap == d.gap && e.keyword == d.keyword
    ensures CoreText(d) == CoreText(e) + tail
  {
    assert d.number + EndText(d) == (d.number + EndText(e)) + tail;
    assert d.afterOp + (d.number + EndText(d)) == (d.afterOp + (d.number + EndText(e))) + tail;
    assert OperatorText(d) == OperatorText(e) + tail;
    assert d.beforeOp + OperatorText(d) == (d.beforeOp + OperatorText(e)) + tail;
    assert WordText(d) == WordText(e) + tail;
    assert d.gap + WordText(d) == (d.gap + WordText(e)) + tail;
  }

  lemma AllNothing()
    ensures All("", IsSpace)
  {}

  lemma TrimDerivation(text: string, d: Derivation) returns (e: Derivation)
    requires Derives(text, d)
    ensures Derives(Trim(text), e) && e.lead == ""
    ensures e.token == d.token && e.op == d.op && e.number == d.number
  {
    hide Lower, IsSpace, IsWord, IsDecimal, IsDigit, All, CoreText, Trim, Solid;
    AllNothing();
    e := d.(lead := "", trail := "", beforePercent := if d.percent == "" then "" else d.beforePercent);
    var tail := if d.percent == "" then d.beforePercent + d.trail else d.trail;
    AllConcat(d.beforePercent, d.trail, IsSpace);
    assert EndText(d) == EndText(e) + tail;
    PeelTail(d, e, tail);
    CoreEndsSolid(e);
    var core := CoreText(e);
    assert text == d.lead + core + tail;
    TrimUnique(d.lead, core, tail);
    assert "" + core == core;
  }

  lemma ParseFromMatch(a: string, b: string)
    requires MatchCommand(a) == MatchCommand(b) && Trim(a) == Trim(b)
    ensures ParseAlertCommand(a) == ParseAlertCommand(b)
    ensures ParseAlertCommand(a).Some? ==> ParseAlertCommand(a).value.rawCommand == Trim(a)
  {}

  lemma TrimTwice(s: string)
    ensures Trim(Trim(s)) == Trim(s)
  {
    var lead, tail := TrimSplits(s);
    assert Trim(s) == "" + Trim(s) + "";
    TrimUnique("", Trim(s), "");
  }

  lemma PadDerivation(text: string, e: Derivation) returns (d: Derivation)
    requires Derives(Trim(text), e)
    ensures Derives(text, d) && d.token == e.token && d.op == e.op && d.number == e.number
  {
    hide Lower, IsSpace, IsWord, IsDecimal, All, CoreText, Trim, Solid;
    var lead, tail := TrimSplits(text);
    d := e.(lead := lead + e.lead, trail := e.trail + tail);
    AllConcat(lead, e.lead, IsSpace);
    AllConcat(e.trail, tail, IsSpace);
    assert EndText(d) == EndText(e) + tail;
    PeelTail(d, e, tail);
    assert text == d.lead + CoreText(d);
  }

  lemma MatchTrimInvariant(text: string)
    ensures MatchCommand(Trim(text)) == MatchCommand(text)
  {
    hide MatchCommand, Derives, Trim;
    if MatchCommand(text).Some? {
      var d := MatchSound(text);
      MatchComplete(text, d);
      var e := TrimDerivation(text, d);
      MatchComplete(Trim(text), e);
    } else if MatchCommand(Trim(text)).Some? {
      var e := MatchSound(Trim(text));
      var d := PadDerivation(text, e);
      MatchComplete(text, d);
    }
  }

  /** Parsing is invariant under trimming, on accepted and rejected texts alike: a stored rule is determined
      by its `raw_command`. */
  lemma ParseTrimInvariant(text: string)
    ensures ParseAlertCommand(Trim(text)) == ParseAlertCommand(text)
    ensures ParseAlertCommand(text).Some? ==> ParseAlertCommand(text).value.rawCommand == Trim(text)
  {
    hide MatchCommand, Trim;
    MatchTrimInvariant(text);
    TrimTwice(text);
    ParseFromMatch(text, Trim(text));
  }

  /** Two texts that trim to the same command are the same rule, or both none. */
  lemma SameCommandSameRule(a: string, b: string)
    requires Trim(a) == Trim(b)
    ensures ParseAlertCommand(a) == ParseAlertCommand(b)
  {
    hide ParseAlertCommand, Trim;
    ParseTrimInvariant(a);
    ParseTrimInvariant(b);
  }

  // ---- characters and dispatch ---------------------------------------------------------

  predicate NotBar(c: char) { c != '|' }

  /** No accepted command contains the separator of the dedupe key. */
  lemma AcceptedHasNoBar(text: string)
    requires ParseAlertCommand(text).Some?
    ensures All(text, NotBar) && All(Trim(text), NotBar)
  {
    var d := MatchSound(text);
    DerivedHasNoBar(text, d);
    var lead, tail := TrimSplits(text);
    AllConcat(lead + Trim(text), tail, NotBar);
    AllConcat(lead, Trim(text), NotBar);
  }

  lemma DerivedHasNoBar(text: string, d: Derivation)
    requires Derives(text, d)
    ensures All(text, NotBar)
  {
    hide All, IsDecimal, IsSpace, IsWord, Lower, OperatorText;
    KeywordHasNoBar(d.keyword);
    BlanksHaveNoBar(d.lead);
    BlanksHaveNoBar(d.gap);
    BlanksHaveNoBar(d.beforeOp);
    WordsHaveNoBar(d.token);
    OperatorHasNoBar(d);
    AllConcat(d.beforeOp, OperatorText(d), NotBar);
    AllConcat(d.token, d.beforeOp + OperatorText(d), NotBar);
    AllConcat(d.gap, WordText(d), NotBar);
    AllConcat(d.keyword, d.gap + WordText(d), NotBar);
    AllConcat(d.lead, CoreText(d), NotBar);
  }

  lemma NumberHasNoBar(number: string)
    requires IsDecimal(number)
    ensures All(number, NotBar)
  {
    var whole, fraction :| DecimalParts(number, whole, fraction);
    DigitsHaveNoBar(whole);
    DigitsHaveNoBar(fraction);
    assert All(".", NotBar);
    hide All;
    if fraction != [] {
      AllConcat(whole, ".", NotBar);
      AllConcat(whole + ".", fraction, NotBar);
    }
  }

  lemma DigitsHaveNoBar(s: string)
    requires All(s, IsDigit)
    ensures All(s, NotBar)
  {}

  lemma BlanksHaveNoBar(s: string)
    requires All(s, IsSpace)
    ensures All(s, NotBar)
  {}

  lemma WordsHaveNoBar(s: string)
    requires All(s, IsWord)
    ensures All(s, NotBar)
  {}

  lemma PercentHasNoBar(s: string)
    requires s == "" || s == "%"
    ensures All(s, NotBar)
  {}

  lemma SignHasNoBar(op: char)
    requires op == '<' || op == '>'
    ensures All([op], NotBar)
  {}

  lemma KeywordHasNoBar(keyword: string)
    requires Lower(keyword) == "/alert"
    ensures All(keyword, NotBar)
  {
    assert forall i :: 0 <= i < 6 ==> LowerChar(keyword[i]) == "/alert"[i];
  }

  lemma OperatorHasNoBar(d: Derivation)
    requires GoodOperator(d)
    ensures All(OperatorText(d), NotBar)
  {
    NumberHasNoBar(d.number);
    BlanksHaveNoBar(d.trail);
    BlanksHaveNoBar(d.beforePercent);
    BlanksHaveNoBar(d.afterOp);
    PercentHasNoBar(d.percent);
    SignHasNoBar(d.op);
    hide All, IsDecimal, IsSpace;
    AllConcat(d.percent, d.trail, NotBar);
    AllConcat(d.beforePercent, d.percent + d.trail, NotBar);
    AllConcat(d.number, EndText(d), NotBar);
    AllConcat(d.afterOp, d.number + EndText(d), NotBar);
    AllConcat([d.op], d.afterOp + (d.number + EndText(d)), NotBar);
  }

  /** The server's dispatch test on the trimmed, lower-cased text. */
  predicate Dispatches(text: string) {
    "/alert" <= Lower(Trim(text))
  }

  /** The dispatch test lets every accepted command through. */
  lemma AcceptedDispatches(text: string)
    requires ParseAlertCommand(text).Some?
    ensures Dispatches(text)
  {
    var d := MatchSound(text);
    var e := TrimDerivation(text, d);
    assert Trim(text) == e.keyword + (e.gap + WordText(e));
    LowerConcat(e.keyword, e.gap + WordText(e));
  }

  // ---- canonical printing ------------------------------------------------------------

  function CanonicalToken(key: string): string {
    if key == "cpu_percent" then "CPU"
    else if key == "memory_percent" then "MEMORY"
    else if key == "disk_percent" then "DISK"
    else if key == "network_rx_kbps" then "RX"
    else "TX"
  }

  function CanonicalCommand(key: string, op: char, number: string): string {
    "/alert " + CanonicalToken(key) + [op] + number + "%"
  }

  function DisplayName(key: string): string {
    if key == "cpu_percent" then "CPU"
    else if key == "memory_percent" then "Memory"
    else if key == "disk_percent" then "Disk"
    else if key == "network_rx_kbps" then "Network RX"
    else "Network TX"
  }

  lemma LowerTokens()
    ensures Lower("CPU") == "cpu" && Lower("MEMORY") == "memory" && Lower("DISK") == "disk"
    ensures Lower("RX") == "rx" && Lower("TX") == "tx"
  {}

  lemma WordTokens()
    ensures All("CPU", IsWord) && All("MEMORY", IsWord) && All("DISK", IsWord) && All("RX", IsWord) && All("TX", IsWord)
  {}

  lemma CanonicalTokenLower(key: string)
    requires RealMetricKey(key)
    ensures CanonicalToken(key) != [] && All(CanonicalToken(key), IsWord)
    ensures MetricOfToken(Lower(CanonicalToken(key))) == Some((key, DisplayName(key)))
  {
    hide Lower, All;
    LowerTokens();
    WordTokens();
  }

  /** The display name belongs to the metric, not to the token used for it. */
  lemma DisplayByKey(token: string)
    requires MetricOfToken(token).Some?
    ensures MetricOfToken(token).value.1 == DisplayName(MetricOfToken(token).value.0)
  {}

  /** Printing metric, comparison and number in the documented form and parsing it gives them back. */
  lemma CanonicalRoundTrip(key: string, op: char, number: string)
    requires RealMetricKey(key) && (op == '<' || op == '>') && IsDecimal(number)
    ensures var text := CanonicalCommand(key, op, number);
            var r := ParseAlertCommand(text);
            r.Some? && r.value.rawCommand == text && r.value.metricKey == key && r.value.comparison == op
            && r.value.threshold == Unsigned(number) && r.value.displayMetric == DisplayName(key)
  {
    hide MatchCommand, Lower, Trim, Solid, CanonicalToken, CanonicalCommand, Derives, MetricOfToken, DisplayName, RealMetricKey,
         IsDecimal, Unsigned;
    var text := CanonicalCommand(key, op, number);
    var d := CanonicalDerivation(key, op, number);
    MatchComplete(text, d);
    CanonicalTokenLower(key);
    TrimSolid(text);
  }

  /** Every rule the parser accepts can be printed in the documented form, and parsing that gives the rule
      back, all but the text itself. */
  lemma RulesRoundTrip(text: string) returns (number: string)
    requires ParseAlertCommand(text).Some?
    ensures IsDecimal(number)
    ensures var r := ParseAlertCommand(text).value;
            var canonical := CanonicalCommand(r.metricKey, r.comparison, number);
            ParseAlertCommand(canonical) == Some(r.(rawCommand := canonical))
  {
    var d := MatchSound(text);
    MatchComplete(text, d);
    number := d.number;
    AcceptedRuleIsReal(text);
    hide MatchCommand, Lower, Trim, CanonicalCommand, MetricOfToken, DisplayName, RealMetricKey, IsDecimal, Magnitude;
    DisplayByKey(Lower(d.token));
    var r := ParseAlertCommand(text).value;
    CanonicalRoundTrip(r.metricKey, r.comparison, number);
  }

  lemma TrimSolid(s: string)
    requires Solid(s)
    ensures Trim(s) == s
  {
    assert s == "" + s + "";
    TrimUnique("", s, "");
  }

  lemma CanonicalLayers(token: string, op: char, number: string)
    ensures var d := Derivation("", "/alert", " ", token, "", op, "", number, "", "%", "");
            "/alert " + token + [op] + number + "%" == d.lead + CoreText(d)
  {
    var d := Derivation("", "/alert", " ", token, "", op, "", number, "", "%", "");
    assert EndText(d) == "%";
    assert OperatorText(d) == [op] + number + "%";
    assert WordText(d) == token + ([op] + number + "%");
    assert CoreText(d) == "/alert " + (token + ([op] + number + "%"));
  }

  lemma CanonicalPieces()
    ensures Lower("/alert") == "/alert" && All(" ", IsSpace) && All("", IsSpace)
  {}

  lemma CanonicalEnds(text: string)
    requires text != [] && text[0] == '/' && text[|text| - 1] == '%'
    ensures Solid(text)
  {}

  lemma CanonicalDerivation(key: string, op: char, number: string) returns (d: Derivation)
    requires RealMetricKey(key) && (op == '<' || op == '>') && IsDecimal(number)
    ensures Derives(CanonicalCommand(key, op, number), d) && Solid(CanonicalCommand(key, op, number))
    ensures d.token == CanonicalToken(key) && d.op == op && d.number == number
  {
    hide Lower, IsWord, IsDecimal, IsDigit, CanonicalToken, MetricOfToken, RealMetricKey, CoreText, All, IsSpace, DisplayName;
    d := Derivation("", "/alert", " ", CanonicalToken(key), "", op, "", number, "", "%", "");
    CanonicalTokenLower(key);
    CanonicalPieces();
    CanonicalLayers(CanonicalToken(key), op, number);
    CanonicalEnds(CanonicalCommand(key, op, number));
  }
}
