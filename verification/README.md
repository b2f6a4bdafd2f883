# SysNetMon in Dafny

SysNetMon watches machines from a distance. Agents sample their host and send one JSON line per interval
to a single-threaded `select` server; the server keeps the latest metric of every host, evaluates the alert
rules users typed as commands, and tells every connected dashboard what happened; a dashboard keeps a
replica of the server's state and shows it to its own users.

This project models that system and proves what it is for: a dashboard's replica agrees with the server,
alerts fire exactly at rising edges, messages survive partial sends and arbitrary chunking, numbers and
names survive printing and reading, locked blocks of the dashboard are atomic, sockets are conserved, and
the agent's percentages and rates add up to the counters they came from.

`dafny verify dfyconfig.toml` checks everything.

| file | part of the system |
|---|---|
| `Text.dfy`, `Decimal.dfy`, `Json.dfy`, `Fields.dfy` | trimming, escaping, two-decimal numbers, JSON texts, the leftmost-match field extractors |
| `Records.dfy`, `Command.dfy`, `Wire.dfy`, `Spaced.dfy` | metrics, rules and alerts; the alert-command grammar and its parser; the printers and the agent's payload; request lines in other layouts |
| `Framing.dfy` | newline framing over partial sends and chunks |
| `Rounding.dfy` | what two decimals on the wire do to alerts |
| `Alerting.dfy` | latest metrics, rules and dedupe cache as a state machine over accepted metrics and registered rules |
| `HostOrder.dfy`, `Server.dfy`, `Ingest.dfy`, `Requests.dfy`, `Hygiene.dfy` | the whole server as a state machine: accept, receive, take a line, disconnect; what each kind of line gives; clean texts stay clean |
| `Rounds.dfy` | the `select` loop: the steps each turn's input determines, and how chunks become served lines |
| `Monitor.dfy` | `MonitorServer`, the imperative server, each method proved against the state machine; descriptors over a whole run |
| `Dashboard.dfy`, `Replication.dfy`, `Delivery.dfy`, `Mirror.dfy`, `Consistency.dfy` | `MonitorConnector`; what each event does to a board; the invariants of a connection's stream |
| `Locking.dfy` | the dashboard's threads, interleaved write by write |
| `Agent.dfy` | `collect_metrics` and the sample, send and reconnect loop |
| `Theorems.dfy`, `Streams.dfy` | the guarantees over every run; the alerts on dashboards' streams and boards |

How the parts fit: `MonitorServer` (class) refines `Server.RunSteps` on `Rounds.StepsOf`, the steps its input
determines; `Rounds.CleanTurns` makes the theorems about clean runs apply to it; `Server.CoreOfRun` reduces a run to
its history of accepted metrics and registered rules, on which `Alerting` proves the alerting laws;
`Theorems.RunIsGood` carries an invariant of every connection's output through every step; the dashboard
class refines `Dashboard.Replay`, to which the theorems apply; `Theorems.WatchServer` puts loop, bytes and
board together.

Conventions. A `double` is an exact value with a sign, so that negative zero prints as the program prints it.
What the operating system answers (accepted descriptors, received chunks, bytes taken by `send`, counters,
time) is an arbitrary input. Each line handled has its own list of clock readings, taken in the order in
which the code asks for the time. A text is *clean* when its only control characters are newline, carriage
return and tab; it is *verbatim* when escaping leaves it as it is. White space is the six characters of
`isspace` in the C locale.

Where code and expectation differ, the model follows the code:

- `/clients` answers with the number of hosts ever seen, not of live connections (cpp/server/main.cpp:260); see `Theorems.HistoryRefinement`.
- A host with a quote, a backslash, a newline, a carriage return or a tab does not survive the agent-to-server hop, because the extractor does not undo escapes (`Wire.HostSurvives`).
- Other control characters are printed raw, and the dashboard's JSON reader rejects them: the connection ends (`Theorems.MetricHandledIffClean`), and every dashboard that joins while such a metric is stored fails at its snapshot (`Streams.GreetedIffClean`).
- The dashboard ignores metric events of the empty host but takes it from snapshots; the exact condition for equal maps is in `Theorems.ReplicaIsExact`, a witness in `Theorems.EmptyHostIsLost`.
- A threshold that prints beyond itself, such as 80.007 with '>', can raise an alert on a value that does not exceed it; the exact condition is in `Rounding.RoundingInventsNoAlert`.
- The transmit rate depends on the received counter being non-zero (`Agent.BytesConserved`).
- A busy machine whose idle counter outruns its total reports far more than 100 percent (`Agent.CpuPercentRange`).

## Model

| member | source | states |
|---|---|---|
| `Theorems.ReplicaIsExact` | cpp/server/main.cpp:181-217 | In every run with clean bytes, a connection in the dashboard role that reads its whole stream, whatever its board held before, never raises and ends with the server's rules and its printed metrics for every named host; the two metric maps are equal if and only if the metric under the empty host is the one the last snapshot showed, hence whenever no host is empty |
| `Theorems.EmptyHostIsLost` | python/dashboard/services.py:206-208 | A reader that was exact stops being exact when a metric with the empty host is published: the server stores it, the dashboard drops it |
| `Theorems.MetricHandledIffClean` | cpp/include/common.hpp:102-127 | The dashboard handles a printed metric event if and only if host and timestamp hold no control character but newline, carriage return and tab; otherwise it raises with its board unchanged |
| `Theorems.LaggingReader` | python/dashboard/services.py:198-208 | At any two positions of any stream past a snapshot a reader holds the metrics of the server after n and after p of the run's steps, with n no later than p; the map is that state's printed map when no host is empty, and in general if and only if the empty entry is that of the state the last snapshot showed |
| `Theorems.AlertsMatchBoard` | cpp/server/main.cpp:213-215 | Every alert on every stream is that of a parsed rule on an accepted metric it matches, the rule registered and the metric stored after the same number of steps; the metric's event precedes it with only alerts between; a reader meeting it holds that very metric for the host, and finds in the alert host, time, command, key, display name, the value beyond the threshold, the rule's threshold and the sentence with the printed value |
| `Theorems.RunIsGood` | cpp/server/main.cpp:159-217 | The invariant behind the three theorems holds for every connection in every reachable state: no line makes a reader raise, every payload is one line, lagging readers hold earlier maps, alerts are explained, dashboards mirror the server |
| `Theorems.StreamIsFramed` | python/dashboard/services.py:183-196 | However the bytes of a connection are cut into chunks, the reader recovers exactly the payloads sent to it, with nothing left over |
| `Theorems.WatchServer` | python/dashboard/services.py:183-196 | After any clean turns of the server's loop, with the payloads of a dashboard's connection sent in any successful partial sends and read in any chunks, the connector's loop started on any board does not raise and leaves the server's rules and printed metrics on it, the whole map when no host is empty |
| `Theorems.BoardAfterBytes` | python/dashboard/services.py:183-229 | The same for the specification of the connector |
| `Theorems.EdgeTriggered` | cpp/server/main.cpp:267-286 | In every run and for every command, a step emits one alert when the metric it accepts is a rising edge of the run's history, and none otherwise; what is emitted arrives by Streams.AlertsReachDashboards |
| `Theorems.GapInRuns` | cpp/server/main.cpp:271-284 | In every run, between two steps that emit an alert for the same command and host lies a step that accepts a metric of that host the command does not match; Streams.GapOnStreams says it of what dashboards receive |
| `Streams.AlertsReachDashboards` | cpp/server/main.cpp:200-217 | When a step of a run accepts a metric, every connection in the dashboard role receives the metric's event and then the alerts the step emits, in order, and nothing else |
| `Streams.AlertsTell` | cpp/server/main.cpp:272-282 | Every alert of every step of every run has host and value of the metric the step accepted, key, display name and threshold of the registered rule its command parses to, a value strictly beyond that threshold, the source's sentence, and the next clock reading of the step |
| `Streams.StreamHasItsAlerts` | cpp/server/main.cpp:267-294 | In every clean run the alert lines of a connection's stream, and the alerts a reader takes from it, are those emitted while it was a dashboard: all, in order, once each |
| `Streams.BoardHoldsItsAlerts` | python/dashboard/services.py:209-213 | A board that reads the stream of any connection does not raise and holds the last 50 of those alerts, after what it held before |
| `Streams.EdgesOnStreams` | cpp/server/main.cpp:267-294 | What a dashboard's stream gains by a step holds exactly the step's alerts, one for a command at a rising edge of the run's history and none otherwise |
| `Streams.GapOnStreams` | cpp/server/main.cpp:271-284 | Between two alerts for the same host and command on dashboards' streams, of the same or of different dashboards, the server accepted a metric of that host the command does not match |
| `Streams.HostsApart` | cpp/server/main.cpp:267-286 | Two runs that accept the same metrics of a host and the same rules in the same order publish the same alerts for it |
| `Streams.SwapOverRuns` | cpp/server/main.cpp:213-215 | Two runs whose histories differ by the order of neighbouring metrics of different hosts end with the same core and publish the same alerts for every host |
| `Streams.ReRegistrationOverRuns` | cpp/server/main.cpp:240-246 | A run whose history has one more registration of a command already registered publishes the same alerts and ends with the same metrics and cache |
| `Streams.StoredCommandDecides` | cpp/include/common.hpp:282-315 | In every run stored rules with the same command are equal, and any text that trims to a stored command parses to its rule |
| `Streams.GreetedIffClean` | cpp/include/common.hpp:206-221 | In every run the snapshot a dashboard is greeted with is handled, and shows the server's map, if its time and every stored metric are clean; otherwise the dashboard raises with its board unchanged |
| `Theorems.HistoryRefinement` | cpp/server/main.cpp:200-213 | After any run the stored metric of each host is its last accepted one, and the map's size is the number of hosts ever accepted |
| `Theorems.CacheCoherence` | cpp/server/main.cpp:267-285 | In every reachable state a present cache entry of a host and a command is the verdict on the host's stored metric, and an entry is absent if and only if no metric of the host was accepted after the command was registered |
| `Theorems.RunCoreFacts` | cpp/include/common.hpp:317-334 | In every run each stored metric sits under its own host and each stored rule names one of the five metrics, so the 0.0 fallback is never taken |
| `Ingest.AgentReachesServer` | cpp/server/main.cpp:159-216 | A payload heading an agent connection's buffer is stored under the metric's own host with every number at two decimals, is the one input added to the history, and leaves the rest of the buffer |
| `Ingest.MetricsOnlyFromAgents` | cpp/server/main.cpp:200-213 | A step adds a metric to the history if and only if it takes a line of type metrics on a connection in the agent role, and then adds what the extractors read |
| `Ingest.RegistrationTakesEffect` | cpp/server/main.cpp:184-198 | A registration line, with any blanks around its parts, gives the connection its declared host and role (any case), an acknowledgement and, for a dashboard, metrics and rules; the core and the other connections stay as they were |
| `Ingest.CanJoin` | cpp/server/main.cpp:144-198 | After every run a further agent or dashboard can join with a registration line in any layout: it becomes the last connection, in its role and under its host, the core and the older connections as they were |
| `Ingest.AgentIntroduces` | cpp/client/main.cpp:71-72 | The line the agent prints is such a registration |
| `Ingest.DashboardIntroduces` | python/dashboard/services.py:168-170 | The line json.dumps prints for the dashboard is such a registration |
| `Ingest.CommandReachesRules` | cpp/server/main.cpp:219-246 | An accepted alert command in a command line of any layout stores the rule the grammar gives it, last, and is the one input added to the history |
| `Requests.ListAlertsAnswered` | cpp/server/main.cpp:254-257 | A command that trims and lowers to /listalerts, in a line of any layout, gives the sender exactly the rules event; core and other connections are unchanged |
| `Requests.ClientsAnswered` | cpp/server/main.cpp:259-262 | /clients gives the sender exactly the acknowledgement with the size of the metrics map; nothing else changes |
| `Requests.HostsAnswered` | cpp/server/main.cpp:259-262 | In every run the number /clients answers with is that of the hosts ever accepted |
| `Requests.UsageAnswered` | cpp/server/main.cpp:239-244 | A text that begins /alert and is not in the language gives the sender exactly the usage error; nothing else changes |
| `Requests.UnknownAnswered` | cpp/server/main.cpp:264 | Any other command gives the sender exactly the unknown-command error; nothing else changes |
| `Requests.RuleAnnounced` | cpp/server/main.cpp:245-251 | An accepted command adds its rule; each dashboard hears the announcement and the new rules event, the sender then its acknowledgement, the others nothing |
| `Requests.ChatRelayed` | cpp/server/main.cpp:225-232 | A chat line of any layout is relayed to exactly the dashboards with the sender and text it names and the time of handling; nothing else changes |
| `Requests.UnsignedChatRelayed` | cpp/server/main.cpp:227 | Without a sender it goes out under the declared host, or the address when there is none |
| `Requests.ChatReachesBoard` | python/dashboard/services.py:214-222 | A board that reads the stream of a dashboard gains the chat item with sender and text of the line |
| `Requests.UnsupportedAnswered` | cpp/server/main.cpp:234 | A line of another type, or metrics from a connection that is no agent, gives the sender exactly the unsupported-message error; nothing else changes |
| `Requests.UntypedAnswered` | cpp/server/main.cpp:183-234 | So does a line without a type |
| `Requests.BareLines` | cpp/server/main.cpp:185-228 | With nothing but the type, a registration takes the address for host, a command is unknown, a chat has no text and the connection for sender |
| `Requests.BareMetrics` | cpp/server/main.cpp:201-212 | Metrics without fields decode to the declared host, the time of handling and zeros |
| `Requests.BlankLinePassedOver` | cpp/server/main.cpp:170-173 | A line of white space changes nothing but the buffer |
| `Requests.PaddedLineServed` | cpp/server/main.cpp:170 | White space around a line makes no difference to what it does |
| `Requests.BeginsUnknown` | cpp/server/main.cpp:153-155 | A new connection has its descriptor and address, no role, no host, no bytes and no output |
| `Requests.RolesAreDeclared` | cpp/server/main.cpp:186-192 | In every run an agent or dashboard has sent a line that registers it as one |
| `Requests.SilentUntilRegistered` | cpp/server/main.cpp:200 | Until then nothing a connection sends enters the history as a metric |
| `Ingest.AgentStreamIsServed` | cpp/server/main.cpp:159-217 | An agent's registration and any metrics, sent in any successful partial sends and received in any chunks, bring exactly these metrics at two decimals into the core, in order, once each, with nothing left in the buffer |
| `Spaced.GetMember` | cpp/include/common.hpp:157-164 | In a line of text members with any blanks between their parts the extractor finds the text of each name |
| `Ingest.PayloadIsOneLine` | cpp/client/main.cpp:82-84 | The agent's payload has no newline and is unchanged by trimming |
| `Alerting.KeyInjective` | cpp/server/main.cpp:269 | Dedupe keys of commands without a bar are equal only for equal host and equal command, whatever the hosts contain |
| `Alerting.BarsWouldCollide` | cpp/server/main.cpp:269 | With a bar in the command two different pairs have the same key |
| `Alerting.EvaluateCache` | cpp/server/main.cpp:267-285 | After evaluating all rules on a metric, the cached value of any host and command is the verdict for the metric's host and is untouched for the others |
| `Alerting.EvaluateCounts` | cpp/server/main.cpp:267-284 | One evaluation emits one alert for a command if it matches and did not match before, and none otherwise, duplicates included |
| `Alerting.EvaluateAlerts` | cpp/server/main.cpp:272-283 | Each alert emitted is that of some stored rule that matches the metric and tells it part by part: host, value, key, display name, threshold, command, sentence and its own clock reading |
| `Alerting.LastWrite` | cpp/server/main.cpp:213 | The metrics map is the last-write map of the accepted metrics, each under its own host, its keys the hosts accepted |
| `Alerting.HistoryRules` | cpp/server/main.cpp:246 | The stored rules are the registered ones in order |
| `Alerting.CacheCoherent` | cpp/server/main.cpp:267-285 | The cache is the function of the history that forgets everything but the last metric of a host since registration |
| `Alerting.CacheIsVerdictOnLatest` | cpp/server/main.cpp:271-284 | A present entry is the verdict on the host's latest metric |
| `Alerting.CacheMeaning` | cpp/server/main.cpp:267-285 | With p the host's last metric, the entry is the verdict on p if the command was registered before p, and absent otherwise |
| `Alerting.CacheAbsent` | cpp/server/main.cpp:271-284 | No entry exists if and only if no metric of the host arrived while the command was registered |
| `Alerting.AlertsAtRisingEdges` | cpp/server/main.cpp:271-284 | Over any history, the number of alerts for a command at a metric is one at a rising edge and zero elsewhere |
| `Alerting.GapBetweenAlerts` | cpp/server/main.cpp:271-284 | Between two inputs that emit an alert for the same host and command lies a metric of that host that does not match |
| `Alerting.HostsDoNotInterfere` | cpp/server/main.cpp:267-286 | A host's alerts are unchanged by deleting every other host's metrics from the history |
| `Alerting.SwapMetrics` | cpp/server/main.cpp:213-215 | Swapping two metrics of different hosts leaves map, rules, cache and both alert lists equal |
| `Alerting.DuplicateNeverFires` | cpp/server/main.cpp:268-284 | A second copy of a rule anywhere behind the first changes neither cache nor alerts of an evaluation |
| `Alerting.DuplicateIsSilent` | cpp/server/main.cpp:246-286 | Two states that differ by a duplicate rule log the same alerts for ever |
| `Alerting.ReRegistrationIsSilent` | cpp/server/main.cpp:240-246 | Registering again a command already present changes no later alert |
| `Server.ServeKeeps` | cpp/server/main.cpp:181-235 | Serving a line changes no descriptor and no buffer, and of the other connections neither role nor host |
| `Server.StepCore` | cpp/server/main.cpp:159-217 | A step moves the alerting core by exactly the input its line carries |
| `Server.CoreOfRun` | cpp/server/main.cpp:86-157 | The core after any run of accepts, reads, lines and disconnects is the history of the accepted metrics and registered rules; disconnects leave no trace |
| `Server.InputsParsed` | cpp/server/main.cpp:238-246 | Every rule registered in a run is the parse of its own stored command |
| `Hygiene.CleanRun` | cpp/server/main.cpp:159-232 | Clean bytes, peer labels and clock readings keep every stored text clean in every reachable state |
| `Hygiene.CleanEmission` | cpp/server/main.cpp:272-282 | Every alert on a clean state is clean |
| `Monitor.MonitorServer.Broadcast` | cpp/server/main.cpp:288-294 | The payload is appended to the stream of every dashboard and of no other connection |
| `Monitor.MonitorServer.EvaluateRules` | cpp/server/main.cpp:267-286 | The loop over the rules, building each alert field by field, leaves the cache and publishes the alerts that the specification Evaluate gives |
| `Monitor.MonitorServer.Register` | cpp/server/main.cpp:184-198 | Registration takes the state to the one the state machine gives |
| `Monitor.MonitorServer.HandleMetric` | cpp/server/main.cpp:200-217 | Storing, broadcasting and evaluating a metric refine serving a report |
| `Monitor.MonitorServer.HandleChat` | cpp/server/main.cpp:225-232 | A chat line is relayed as the state machine says |
| `Monitor.MonitorServer.AddAlertRule` | cpp/server/main.cpp:245-252 | Adding a rule, its two broadcasts and its acknowledgement refine serving the request |
| `Monitor.MonitorServer.HandleCommand` | cpp/server/main.cpp:237-265 | Every branch of the command dispatch refines the request the text classifies as; what each gives is stated by the Requests rows |
| `Monitor.MonitorServer.HandleLine` | cpp/server/main.cpp:181-235 | Handling any line refines serving its classification; what each kind of line gives is stated by the Requests and Ingest rows |
| `Monitor.MonitorServer.ReadClient` | cpp/server/main.cpp:159-179 | Reading a chunk is exactly one receive of that chunk and one line step for each line then complete; end of file reports false and changes nothing |
| `Monitor.MonitorServer.TakeOne` | cpp/server/main.cpp:169-174 | One turn of the buffer loop is one line step, shortens the buffer and keeps the descriptors |
| `Monitor.MonitorServer.AcceptConnection` | cpp/server/main.cpp:144-157 | A valid descriptor joins at the end and is counted as accepted; a failed call changes nothing; descriptors stay distinct |
| `Monitor.MonitorServer.DisconnectClient` | cpp/server/main.cpp:296-300 | The connection is closed once and removed, the others keep their order |
| `Monitor.MonitorServer.DisconnectMarked` | cpp/server/main.cpp:135-137 | The reverse loop is the disconnect steps of the marks from last to first and leaves what erasing the marked positions leaves |
| `Monitor.MonitorServer.ReadReady` | cpp/server/main.cpp:122-133 | The loop is exactly the reads, in order, of the watched readable connections with the bytes and clocks reported for them, and marks exactly the watched ones that errored or ended |
| `Monitor.MonitorServer.RunRound` | cpp/server/main.cpp:87-138 | One turn is exactly the steps its input determines: the accept, the reads with the bytes reported, the disconnects; a connection accepted in it is not read in it; afterwards no errored or ended descriptor is a client's, every other one still is, in order, and a valid arrival has joined |
| `Monitor.MonitorServer.Loop` | cpp/server/main.cpp:86-138 | The state after any turns is that of the steps the turns determine, and the accepted descriptors are theirs in order |
| `Monitor.RoundReads` | cpp/server/main.cpp:118-133 | Every receive of a turn concerns a connection older than the turn |
| `Monitor.MonitorServer.ShutdownAll` | cpp/server/main.cpp:302-311 | Nothing stays open and the closed descriptors are the accepted ones and the listener, each as often as accepted |
| `Monitor.MonitorServer.Run` | cpp/server/main.cpp:86-141 | After any turns and shutdown the core is that of the steps the turns determine, the accepted descriptors are theirs, each is closed exactly once, and the listener too |
| `Monitor.EraseIsFilter` | cpp/server/main.cpp:135-137 | Erasing increasing positions from the last to the first stays in range and leaves exactly the unmarked elements in order |
| `Monitor.ReadsAreOld` | cpp/server/main.cpp:118-133 | Reads of watched descriptors are reads of connections that were there before the accept |
| `Monitor.RulesEventToJson` | cpp/include/common.hpp:252-266 | The loop prints the rules event of the specification |
| `Monitor.SnapshotEventToJson` | cpp/include/common.hpp:206-221 | The loop prints the snapshot event, metrics in ascending order of host |
| `HostOrder.OrderUnique` | cpp/include/common.hpp:210 | A set of hosts has one ascending listing |
| `HostOrder.LessIsLexicographic` | cpp/include/common.hpp:210 | The order is that of strings: the smaller character at the first difference, or the end |
| `HostOrder.SortHosts` | cpp/include/common.hpp:210-211 | The loop produces that listing |
| `Command.MatchComplete` | cpp/include/common.hpp:282-287 | Every text of the declared language is matched, with the word, operator and number of its derivation |
| `Command.MatchSound` | cpp/include/common.hpp:282-287 | Every matched text has a derivation |
| `Command.ParserDecidesGrammar` | cpp/include/common.hpp:282-315 | The parser accepts exactly the texts of the language whose word, in any case, is one of the fourteen; the rule has the metric and display name of the word (a share's word begins both, a rate's ends in their direction), the sign, the number's value and the trimmed text |
| `Command.AcceptedRuleIsReal` | cpp/include/common.hpp:295-334 | An accepted rule names one of the five metrics and one of the two comparisons |
| `Command.ParseTrimInvariant` | cpp/include/common.hpp:282-291 | Parsing a text and parsing it trimmed give the same answer, accepted or not, and the trimmed text is the stored command |
| `Command.SameCommandSameRule` | cpp/include/common.hpp:282-315 | Texts that trim to the same command parse to the same rule, or neither does |
| `Command.AcceptedHasNoBar` | cpp/include/common.hpp:283 | No accepted text contains a bar |
| `Command.AcceptedDispatches` | cpp/server/main.cpp:238-239 | Every accepted text passes the trimmed, lower-cased /alert test |
| `Command.CanonicalRoundTrip` | cpp/include/common.hpp:282-315 | Printing metric, comparison and number in the documented form and parsing it gives metric, display name, comparison and threshold back |
| `Command.RulesRoundTrip` | cpp/include/common.hpp:282-315 | Every rule the parser accepts has a documented form that parses to the same rule, all but the text itself |
| `Rounding.RoundingInventsNoAlert` | cpp/include/common.hpp:336-342 | On no metric does rounding on the wire turn a rule that does not match into one that does, if and only if the threshold does not print beyond itself (for a rule on one of the five metrics) |
| `Rounding.TwoDecimalsAreSafe` | cpp/include/common.hpp:151-155 | A threshold of at most two decimals prints as itself and never invents an alert |
| `Rounding.ClearMatchesSurvive` | cpp/include/common.hpp:336-342 | A value beyond any threshold by more than 0.005 still matches after the wire |
| `Rounding.RoundingCanInventAnAlert` | cpp/include/common.hpp:336-342 | A command the parser accepts and a metric for which rounding invents an alert |
| `Rounding.RoundedMonotone` | cpp/include/common.hpp:151-155 | Rounding to two decimals keeps the order of values |
| `Wire.AgentRoundTrip` | cpp/client/main.cpp:82-84 | For host and timestamp that need no escaping the extractors recover type, host, timestamp, the four integers and every number at two decimals from the payload |
| `Wire.HostSurvives` | cpp/include/common.hpp:157-164 | The host survives the agent-to-server hop if and only if it has no quote, backslash, newline, carriage return or tab |
| `Wire.ReprintStable` | cpp/include/common.hpp:184-200 | Printing the decoded metric gives the same data text |
| `Wire.MetricDataToJson` | cpp/include/common.hpp:184-200 | The printer writes the eleven fields in order |
| `Wire.PrintMetrics` | cpp/include/common.hpp:209-218 | The loop with its first flag writes the comma-separated items |
| `Wire.RuleToJson` | cpp/include/common.hpp:261-262 | The printer writes a rule entry |
| `Wire.PrintRules` | cpp/include/common.hpp:255-263 | The loop writes the comma-separated rule entries |
| `Wire.MetricEventShape` | cpp/include/common.hpp:202-204 | The event is well-formed and survives reading exactly when its texts are clean |
| `Wire.AlertEventShape` | cpp/include/common.hpp:238-250 | The event is well-formed and survives reading exactly when its texts are clean |
| `Wire.SnapshotShape` | cpp/include/common.hpp:206-221 | The event is well-formed and survives reading exactly when all its texts are clean |
| `Wire.PayloadIsObject` | cpp/client/main.cpp:82-84 | Cutting the brace off the metric and putting the type in front gives one flat object |
| `Fields.SearchLeftmost` | cpp/include/common.hpp:157-182 | The search finds nothing if and only if no position matches, and otherwise the match at the leftmost position |
| `Fields.AfterKeyComplete` | cpp/include/common.hpp:158 | Every text of the key pattern is matched with its remainder |
| `Fields.AfterKeySound` | cpp/include/common.hpp:158 | Every match is a text of the key pattern |
| `Fields.SearchField` | cpp/include/common.hpp:157-182 | In a flat printed object the search for a name reaches the field of that name |
| `Fields.CaptureText` | cpp/include/common.hpp:158 | The string capture of a printed string is its escaped text |
| `Fields.CaptureNumber` | cpp/include/common.hpp:167 | The number capture takes the whole printed number |
| `Fields.CaptureInteger` | cpp/include/common.hpp:176 | The integer capture takes the whole printed integer and its value is the integer |
| `Decimal.FormatParts` | cpp/include/common.hpp:151-155 | The printed number is an optional sign, a whole part without leading zeros and a fraction, and its value is the number at two decimals |
| `Decimal.FormatStable` | cpp/include/common.hpp:151-155 | Printing the rounded number prints the same text |
| `Decimal.Hundredths` | cpp/include/common.hpp:151-155 | Rounding to hundredths is off by at most half a hundredth |
| `Decimal.TiesToEven` | cpp/include/common.hpp:151-155 | A value half-way between two hundredths goes to the even one |
| `Decimal.NatRoundTrip` | cpp/include/common.hpp:194-197 | Reading a printed integer gives it back |
| `Json.EscapeRoundTrip` | cpp/include/common.hpp:102-127 | Decoding an escaped text by section 7 of RFC 8259 gives it back when its control characters are newline, carriage return and tab, and fails otherwise |
| `Json.LoadsRender` | python/dashboard/services.py:194 | Loading a printed value gives that value if its texts are clean and raises otherwise |
| `Json.ValueRoundTrip` | cpp/include/common.hpp:184-266 | The same for a value followed by a structural character, for all values by induction |
| `Json.RenderSingleLine` | cpp/include/common.hpp:184-266 | Every printed value is a single line |
| `Text.EscapeJson` | cpp/include/common.hpp:102-127 | The loop computes the escaped text |
| `Text.EscapeSingleLine` | cpp/include/common.hpp:102-127 | Escaped text has no newline, for every text |
| `Text.EscapeIdentity` | cpp/include/common.hpp:102-127 | Escaping changes nothing if and only if no character needs it |
| `Text.EscapeHidesQuotes` | cpp/include/common.hpp:102-127 | For every text, every quote of the escaped text is escaped and no backslash stands alone at its end |
| `Text.EscapeQuoteFree` | cpp/include/common.hpp:102-127 | Escaped text has no quote character if and only if the text has none |
| `Text.TrimCopy` | cpp/include/common.hpp:85-93 | The two erasures compute the trimmed text, with no white space at either end |
| `Text.TrimSplits` | cpp/include/common.hpp:85-93 | Trimming takes off white space at both ends and nothing else |
| `Text.TrimUnique` | cpp/include/common.hpp:85-93 | Any text that is white space, a solid core and white space trims to that core |
| `Text.LowerFoldsCase` | cpp/include/common.hpp:95-100 | Two texts are lowered to the same if and only if they differ in the case of letters only; a text is unchanged if and only if it has no capital; lowering twice is lowering once |
| `Framing.SendLine` | cpp/include/common.hpp:268-280 | The bytes put on the wire are the prefix the kernel took over all partial sends, and success means the whole line |
| `Rounds.ReadsServeLines` | cpp/server/main.cpp:159-179 | For every state, connection and chunks, receiving the chunks serves exactly the complete lines of buffer and bytes, trimmed and without the empty ones, in order, and leaves the tail; the chunking does not show |
| `Rounds.NoByteIsLost` | cpp/server/main.cpp:165-176 | In every run the bytes a connection sent are exactly the lines taken from it, each with its newline, and its buffer, whatever the other connections do |
| `Rounds.TurnsServeWholeLines` | cpp/server/main.cpp:86-179 | After any turns the lines taken from a connection are the complete lines of all it sent and its buffer is their tail |
| `Rounds.TurnsLeaveNothingWaiting` | cpp/server/main.cpp:165-176 | Between turns no buffer holds a complete line |
| `Rounds.CleanTurns` | cpp/server/main.cpp:86-157 | Clean peer labels, bytes and clock readings of the turns make a clean run |
| `Framing.ChunkingIrrelevant` | python/dashboard/services.py:183-194 | Feeding chunks one by one gives the lines and the rest of their concatenation |
| `Framing.SplitAppend` | python/dashboard/services.py:190-194 | Appending bytes only appends lines |
| `Framing.PrefixFraming` | cpp/include/common.hpp:268-280 | What a failed send leaves on the wire, any prefix of the messages' bytes, yields the first messages whole and a prefix of the next |
| `Framing.EndToEndFraming` | cpp/include/common.hpp:268-280 | For all messages, all successful patterns of partial sends and all chunkings the receiver handles exactly the messages, in order, once each |
| `Dashboard.MonitorConnector.Handle` | python/dashboard/services.py:198-229 | Handling an event takes the board to the one the specification gives, and reports exceptions |
| `Dashboard.MonitorConnector.HandleTextLine` | python/dashboard/services.py:191-194 | A blank line is skipped, an unreadable one raises, any other is handled |
| `Dashboard.MonitorConnector.Consume` | python/dashboard/services.py:183-196 | The buffer loop over any chunks handles the lines of the whole stream in order, up to an exception |
| `Dashboard.IndexByHost` | python/dashboard/services.py:204 | The comprehension maps each host to its last item, and fails if an item has none |
| `Dashboard.WindowsHoldHistory` | python/dashboard/services.py:209-229 | After any stream a board handled, its alert list is the end of all alerts, 50 of them or fewer, and its chat list the end of chat, acknowledgements and errors merged, 80 or fewer |
| `Dashboard.RaisedStays` | python/dashboard/services.py:175-181 | After an exception the rest of the connection's stream changes nothing |
| `Replication.MetricEffect` | python/dashboard/services.py:205-208 | A printed metric event sets the host's printed metric, and nothing for the empty host, on every board |
| `Replication.SnapshotEffect` | python/dashboard/services.py:203-204 | A printed snapshot makes every board's metrics the server's printed map |
| `Replication.RulesEffect` | python/dashboard/services.py:223-224 | A printed rules event makes every board's rules the server's |
| `Replication.MetricValueField` | cpp/include/common.hpp:317-334 | The printed metric shows under a rule's key the value the rule looks at |
| `Replication.AlertFieldsByName` | cpp/include/common.hpp:238-250 | A reader finds each of the eight parts of a printed alert under its name |
| `Delivery.AlertArrives` | python/dashboard/services.py:209-213 | A printed alert is appended whole, the window cut to 50 and the upload result stored |
| `Delivery.ChatArrives` | python/dashboard/services.py:214-222 | A printed chat message arrives with sender, text and time, the window cut to 80 |
| `Delivery.NoticeArrives` | python/dashboard/services.py:225-229 | Acknowledgements and errors join the chat under their own names at the reader's time |
| `Delivery.RuleFieldsByName` | cpp/include/common.hpp:261-262 | A reader finds command, metric key and threshold of a rule entry |
| `Delivery.SnapshotFieldsByName` | cpp/include/common.hpp:206-221 | A reader finds time and metrics of a snapshot by name |
| `Delivery.BareEvents` | python/dashboard/services.py:202-229 | An event without members is noted and stands for a chat from unknown without text, an empty notice, an empty alert, no rules, no metrics |
| `Delivery.OddEvents` | python/dashboard/services.py:198-202 | A value that is no object raises before anything changes, a type that cannot be looked up after the time was noted, and no type is only noted |
| `Locking.JobSerial` | python/dashboard/services.py:198-229 | The single writes of an event, uninterrupted, amount to handling it |
| `Locking.AlwaysAtomic` | python/dashboard/services.py:130-154 | Under every interleaving: mutual exclusion, the board is the serial run of the completed locked blocks up to the owner's own writes, and every snapshot is exactly such a serial board |
| `Locking.SnapshotsAreAtomic` | python/dashboard/services.py:130-134 | Under every interleaving each snapshot is the board after a whole number of connector jobs apart from aws, later ones show no fewer, and none shows more than 50 alerts or 80 chat items |
| `Locking.UploadsAreLatest` | python/dashboard/services.py:142-154 | Every alert handed to the publisher was the last of a board after whole jobs, and is not empty |
| `Locking.WindowOverflowsInside` | python/dashboard/services.py:211-212 | In the middle of an alert event on a full window the shared board holds 51 alerts while the connector owns the lock |
| `Agent.MetricsAgent.Collect` | cpp/include/metrics.hpp:197-317 | The sample is the one the specification gives, which Agent.SamplesTell, CpuConserved and BytesConserved state in terms of the readings, and both carried samples are replaced |
| `Agent.MetricsAgent.Stream` | cpp/client/main.cpp:142-156 | The inner loop samples and sends until a send fails; metrics, carried state and lines are those of the ticks performed |
| `Agent.MetricsAgent.Run` | cpp/client/main.cpp:131-164 | Whatever the reconnects, the metrics are those of one uninterrupted run over all ticks performed, and every socket opened is closed once |
| `Agent.SessionSends` | cpp/client/main.cpp:142-156 | The ticks of a session are performed up to and including the first whose send fails, and the lines that go out are the payloads of those before it, in order |
| `Agent.SamplesTell` | cpp/include/metrics.hpp:197-304 | Every metric of a run tells the reading of its tick: host, time, share and whole megabytes of used and total memory, and of the disk when its size fits 64 bits |
| `Agent.CpuPercentRange` | cpp/include/metrics.hpp:204-208 | cpu_percent is in [0, 100] if and only if, whenever one is computed, the idle counter moved no further than the total |
| `Agent.PercentRange` | cpp/include/metrics.hpp:287-303 | A memory or disk share is in [0, 100] if and only if the used part is within the total, when there is one |
| `Agent.TrueDelta` | cpp/include/metrics.hpp:204-205 | 64-bit subtraction gives the true growth, across a wrap too |
| `Agent.CpuConserved` | cpp/include/metrics.hpp:203-209 | Over any run with growing counters the percentages weighted by total ticks add up to 100 times the busy growth, less what fell after samples showing zero; each is a percentage |
| `Agent.BytesConserved` | cpp/include/metrics.hpp:307-314 | In both directions rates times elapsed times 1024 add up to the byte growth, less the intervals that yield no rate, which the received counter alone decides |

## Left out

- Failed sends: the server ignores the result of `send_line`, so delivery is stated for runs in which no send fails; `Framing.SendLine` and `Framing.PrefixFraming` say what a failed one leaves on the wire.
- Socket set-up, name resolution, `select` and its size limit, signals, daemonizing and process start-up: system calls; their answers are inputs. An `accept` that names a descriptor already open cannot happen and is treated as a failed call.
- Reading the counters, `/proc/meminfo` and `statvfs` themselves: the values read are inputs; memory and disk follow the Linux branch of `collect_metrics`.
- IEEE rounding, NaN, infinities and out-of-range conversions in `stod` and `stoll`: numbers are exact and in range.
- JSON beyond what is printed: no `\u` escapes, exponents, `true`, `false`, `null` or insignificant white space in the reader; a `metrics` or `data` member of another type, or a host that is not a text, counts as an exception.
- Dashboard.MonitorConnector.Handle: a metric whose host is a number raises here, where Python stores it under that number; the server prints every host as a text.
- Dashboard.IndexByHost: an item whose host is a number fails here, where Python indexes it, for the same reason.
- Bytes and characters: the model works on characters, so chunks that split a UTF-8 character are not covered, and Python's `strip` is taken on the six white-space characters.
- The dashboard's own requests whose texts need escaping: the layout of `json.dumps` is covered, its `\u` escapes are not.
- `generated_at` of a snapshot: a clock reading outside the lock.
- The publisher's uploads, Flask routes, the browser code, scripts, containers and build files: I/O and user interface.
- `_send` and `stop` of the dashboard, and `parse_args` of the agent: they would only add easy members.
- Timestamps as times: they are texts without order.
