/** The records that travel between agent, server and dashboard. */
module Records {
  import opened Decimal

  datatype Metric = Metric(
    host: string,
    timestamp: string,
    cpuPercent: Double,
    memoryPercent: Double,
    diskPercent: Double,
    networkRxKbps: Double,
    networkTxKbps: Double,
    memoryUsedMb: int,
    memoryTotalMb: int,
    diskUsedMb: int,
    diskTotalMb: int)

  datatype ChatMessage = ChatMessage(sender: string, text: string, timestamp: string)

  datatype AlertRule = AlertRule(
    rawCommand: string,
    metricKey: string,
    displayMetric: string,
    threshold: Double,
    comparison: char)

  datatype AlertEvent = AlertEvent(
    host: string,
    timestamp: string,
    metricKey: string,
    displayMetric: string,
    metricValue: Double,
    threshold: Double,
    rule: string,
    message: string)

  /** `metric_value_for_key`, with its fallback for a name that is no metric. */
  function MetricValue(m: Metric, key: string): Double {
    if key == "cpu_percent" then m.cpuPercent
    else if key == "memory_percent" then m.memoryPercent
    else if key == "disk_percent" then m.diskPercent
    else if key == "network_rx_kbps" then m.networkRxKbps
    else if key == "network_tx_kbps" then m.networkTxKbps
    else ZERO
  }

  predicate RuleMatches(rule: AlertRule, m: Metric) {
    var value := MetricValue(m, rule.metricKey).Value();
    if rule.comparison == '>' then value > rule.threshold.Value() else value < rule.threshold.Value()
  }

  /** What the metric is after one trip over the wire: every fractional number at two decimals. */
  function OnTheWire(m: Metric): Metric {
    m.(cpuPercent := Rounded(m.cpuPercent), memoryPercent := Rounded(m.memoryPercent),
       diskPercent := Rounded(m.diskPercent), networkRxKbps := Rounded(m.networkRxKbps),
       networkTxKbps := Rounded(m.networkTxKbps))
  }

  predicate RealMetricKey(key: string) {
    key == "cpu_percent" || key == "memory_percent" || key == "disk_percent"
    || key == "network_rx_kbps" || key == "network_tx_kbps"
  }
}
