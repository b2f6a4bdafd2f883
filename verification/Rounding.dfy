/** What rounding to two decimals on the wire does to alerts. */
module Rounding {
  import opened Decimal
  import opened Records
  import opened Command
  import opened Alerting

  lemma WireValue(m: Metric, key: string)
    ensures MetricValue(OnTheWire(m), key).Value() == Rounded(MetricValue(m, key)).Value()
  {
    HundredthsExact(0);
  }

  lemma RoundedDistance(d: Double)
    ensures -0.005 <= Rounded(d).Value() - d.Value() <= 0.005
  {}

  lemma HundredthsMonotone(x: real, y: real)
    requires x <= y
    ensures Hundredths(x) <= Hundredths(y)
  {
    var a, b := Hundredths(x), Hundredths(y);
    assert x < y ==> a as real < b as real + 1.0;
  }

  /** Rounding keeps the order of values. */
  lemma RoundedMonotone(a: Double, b: Double)
    requires a.Value() <= b.Value()
    ensures Rounded(a).Value() <= Rounded(b).Value()
  {
    hide Hundredths;
    if !a.negative && !b.negative {
      HundredthsMonotone(a.magnitude, b.magnitude);
    } else if a.negative && b.negative {
      HundredthsMonotone(b.magnitude, a.magnitude);
    } else if !a.negative && b.negative {
      HundredthsMonotone(a.magnitude, b.magnitude);
      HundredthsMonotone(b.magnitude, a.magnitude);
      HundredthsExact(0);
    }
  }

  /** The printed threshold does not lie beyond the threshold: what a caller can tell from the command. */
  predicate PrintsInside(rule: AlertRule) {
    if rule.comparison == '>' then Rounded(rule.threshold).Value() <= rule.threshold.Value()
    else Rounded(rule.threshold).Value() >= rule.threshold.Value()
  }

  lemma InsideInventsNothing(rule: AlertRule, m: Metric)
    requires PrintsInside(rule)
    ensures RuleMatches(rule, OnTheWire(m)) ==> RuleMatches(rule, m)
  {
    hide Rounded, MetricValue, OnTheWire;
    var d := MetricValue(m, rule.metricKey);
    WireValue(m, rule.metricKey);
    if d.Value() <= rule.threshold.Value() {
      RoundedMonotone(d, rule.threshold);
    }
    if rule.threshold.Value() <= d.Value() {
      RoundedMonotone(rule.threshold, d);
    }
  }

  /** A metric all of whose fractional numbers are d. */
  function Flat(d: Double): Metric {
    Metric("", "", d, d, d, d, d, 0, 0, 0, 0)
  }

  lemma OutsideInvents(rule: AlertRule)
    requires !PrintsInside(rule) && RealMetricKey(rule.metricKey)
    ensures RuleMatches(rule, OnTheWire(Flat(rule.threshold))) && !RuleMatches(rule, Flat(rule.threshold))
  {
    hide Rounded, OnTheWire;
    WireValue(Flat(rule.threshold), rule.metricKey);
  }

  lemma UnknownKeyInventsNothing(rule: AlertRule, m: Metric)
    requires !RealMetricKey(rule.metricKey)
    ensures RuleMatches(rule, OnTheWire(m)) <==> RuleMatches(rule, m)
  {}

  /** Rounding on the wire invents an alert for a rule on no metric at all, if and only if the threshold
      does not print beyond itself: at most itself for '>', at least itself for '<'. */
  lemma RoundingInventsNoAlert(rule: AlertRule)
    ensures (forall m :: RuleMatches(rule, OnTheWire(m)) ==> RuleMatches(rule, m)) <==>
            (RealMetricKey(rule.metricKey) ==> PrintsInside(rule))
  {
    hide RuleMatches, OnTheWire, PrintsInside, RealMetricKey;
    if !RealMetricKey(rule.metricKey) {
      forall m
        ensures RuleMatches(rule, OnTheWire(m)) ==> RuleMatches(rule, m)
      {
        UnknownKeyInventsNothing(rule, m);
      }
    } else if PrintsInside(rule) {
      forall m
        ensures RuleMatches(rule, OnTheWire(m)) ==> RuleMatches(rule, m)
      {
        InsideInventsNothing(rule, m);
      }
    } else {
      OutsideInvents(rule);
    }
  }

  /** A threshold with at most two decimals. */
  ghost predicate TwoDecimals(d: Double) {
    exists h: nat :: InHundredths(d, h)
  }

  ghost predicate InHundredths(d: Double, h: nat) {
    d.magnitude == h as real / 100.0
  }

  /** A threshold of at most two decimals prints as itself, so it never invents an alert. */
  lemma TwoDecimalsAreSafe(rule: AlertRule, m: Metric)
    requires TwoDecimals(rule.threshold)
    ensures PrintsInside(rule)
    ensures RuleMatches(rule, OnTheWire(m)) ==> RuleMatches(rule, m)
  {
    var h: nat :| InHundredths(rule.threshold, h);
    HundredthsExact(h);
    InsideInventsNothing(rule, m);
  }

  /** A measured value beyond any threshold by more than half a hundredth matches after printing too. */
  lemma ClearMatchesSurvive(rule: AlertRule, m: Metric)
    ensures var v := MetricValue(m, rule.metricKey).Value();
            var t := rule.threshold.Value();
            (if rule.comparison == '>' then v > t + 0.005 else v < t - 0.005) ==> RuleMatches(rule, OnTheWire(m))
  {
    hide Rounded, MetricValue, OnTheWire;
    WireValue(m, rule.metricKey);
    RoundedDistance(MetricValue(m, rule.metricKey));
  }

  lemma DigitSnoc(s: string, c: char)
    ensures NatOf(s + [c]) == NatOf(s) * 10 + DigitValue(c)
  {
    assert (s + [c])[..|s|] == s;
  }

  lemma DigitsValue(c: char, d: char)
    ensures NatOf([c, d]) == DigitValue(c) * 10 + DigitValue(d)
  {
    DigitSnoc([], c);
    DigitSnoc([c], d);
    assert [] + [c] == [c] && [c] + [d] == [c, d];
  }

  lemma PartsOfThree()
    ensures DecimalParts("80.007", "80", "007")
  {
    assert "80" + "." + "007" == "80.007";
  }

  lemma ThreeDecimals()
    ensures IsDecimal("80.007") && Magnitude("80.007") == 80.007
  {
    PartsOfThree();
    hide NatOf, Magnitude, DecimalParts;
    MagnitudeOfParts("80.007", "80", "007");
    DigitsValue('8', '0');
    DigitsValue('0', '0');
    DigitSnoc("00", '7');
    assert ['8', '0'] == "80" && ['0', '0'] == "00" && "00" + ['7'] == "007";
    assert Pow10(3) == 10.0 * Pow10(2) && Pow10(2) == 10.0 * Pow10(1) && Pow10(1) == 10.0 * Pow10(0);
  }

  /** A command the server accepts for which rounding does invent an alert: 80.007 is not above 80.007 but
      prints as 80.01. */
  lemma RoundingCanInventAnAlert()
    ensures exists rule: AlertRule, m: Metric :: Parsed(rule) && RuleMatches(rule, OnTheWire(m)) && !RuleMatches(rule, m)
  {
    hide CanonicalCommand, ParseAlertCommand, IsDecimal, Magnitude;
    ThreeDecimals();
    var text := CanonicalCommand("cpu_percent", '>', "80.007");
    CanonicalRoundTrip("cpu_percent", '>', "80.007");
    var rule := ParseAlertCommand(text).value;
    assert Parsed(rule);
    assert (80.007 * 100.0).Floor == 8000;
    assert Hundredths(80.007) == 8001;
    assert !PrintsInside(rule);
    OutsideInvents(rule);
  }
}
