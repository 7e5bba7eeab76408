# Aloxberry, verified

Aloxberry links a Loxone Miniserver to Alexa: a daemon beside the Miniserver, a relay
("bridge") it dials out to, and a few Lambda functions with their table of linked users.
This project models the parts of it whose correctness spans several functions or a whole
run, and proves what their documentation promises. Where a promise does not hold of the
code, the model keeps the code, a lemma gives the input that breaks the promise, and
another one says exactly when it does hold.

`dafny verify dfyconfig.toml` checks everything. Each protocol is a pure step function with
lemmas over all its runs; beside it stands the class that updates its fields the way the
source does, and every method of the class is proved to be one of those steps.

| Files | What they model |
|---|---|
| `AlexaModel`, `JsNumbers`, `TextScan`, `ModeMaps` | shared data, JavaScript rounding over the reals, text scanning |
| `PushMapping`, `PullReport`, `PushPullAgreement` | the two independent derivations of Alexa properties, and their agreement |
| `RateControl`, `StateReporter`, `StateCache` | duplicate suppression and deferral over runs, the reporter object, the transition cache |
| `Scaling`, `RangeControl`, `ColorText`, `SceneList` | value arithmetic and parsers of the directive router |
| `Routing`, `Dispatch`, `Relay`, `Bridge`, `LiveOwner` | the relay: slots, pending dispatches, sockets, heartbeats |
| `BridgeClient`, `Readmission` | the daemon's reconnect machine, and both sides together |
| `EventTables`, `MiniserverLink` | binary event tables, frame pairs, the FIFO of commands |
| `LinkTable`, `LinkCap`, `Locale` | the users table under interleaving, the link cap, the locale lookup |

Where the code and its comments disagree, the code was followed. Each of these promises has
a lemma that gives an input on which it fails and one that says exactly when it holds:

- A report deferred by the minimum interval is said never to lose the last change. A change
  that returns to the last-sent value inside the window leaves the older one held, and that
  one is sent (`RateControl.ReturnInsideWindowSendsStaleValue`,
  `RateControl.NewestValueArrivesWhileEnabled`).
- Push and pull are said never to disagree. Live temperatures are pushed in tenths and
  answered raw (`PushPullAgreement.TenthsPart`, `LiveReportIsAnswered`); a blind or window row
  with the garage-door category and a ModeController, which the type map does not offer, is
  pushed as a mode that ReportState does not know (`GarageRowParts`, `PushEqualsPullIff`); an
  empty `activeMoods` text is pushed as OFF while the pull path answers the same OFF as a stub
  with an uncertainty of a minute (`EmptyMoodsRowParts`, `SnapshotEqualsReport`); and a text
  cached behind a number of the same state is answered but not pushed
  (`NumberHidesTextParts`, `KnownIsPushedIff`).
- A dispatch whose send throws is meant to cancel its own awaiter; it cancels every awaiter of
  that user (`Relay.FailedSendHitsEarlierDispatch`, `Relay.FailedSendSparesOthersIff`).
- The master switch is said to be reversible. Off and on again before the old socket's close
  event ends in "giveup" (`BridgeClient.QuickToggleGivesUp`, `ResumedGivesUpIff`), and a forced
  reconnect opens a socket while the switch is off (`ForcedWhileOff`, `SuspendedOpensIff`).
- `clean('revoked')` is said to spare a row that was re-linked after its scan. A marking from an
  older read that lands after the grant costs the row (`LinkTable.LateMarkingIsReachable`,
  `LateMarkingCostsRelinkedRow`, `CleanDeletesIffMarked`).
- ValueSelector and Ventilation apply the inverted axis when writing but not when reading
  (`RangeControl.InvertedSelectorReadsBackMirrored`, `WriteSettleRead`).

## Model

| member | source | states |
|---|---|---|
| PushPullAgreement.PushEqualsPullIff | bin/src/state-reporter.js:594-1281 | for every cache and every device, all properties the mapper yields for cached states are answered by ReportState with the same namespace, instance, name and value, if and only if the device is not a Jalousie or Window with a cached position shown as a garage door with a mode |
| PushPullAgreement.SnapshotEqualsReport | bin/src/state-reporter.js:207-252 | the startup snapshot has distinct keys and ReportState answers each of its values; every snapshot property is in the report if and only if no empty activeMoods text is cached on a row with power; every certain answer is in the snapshot if and only if no text of the row hides behind a number |
| PushPullAgreement.KnownIsPushedIff | bin/src/directive-router.js:4241-4757 | everything ReportState answers with certainty, connectivity aside, is what some cached state of the control makes the push path send, if and only if no text that the row would have to send is cached behind a number |
| PushPullAgreement.ReportAnswersOnce | bin/src/directive-router.js:4241-4757 | no two properties of a StateReport share a key, and besides connectivity it only holds interfaces the endpoint advertises |
| PushPullAgreement.PushedOnce | bin/src/state-reporter.js:207-252 | two states of one control, such as the two a ventilation derives its power from, never push different values for one key |
| PushPullAgreement.SnapshotIgnoresStateOrder | bin/src/state-reporter.js:207-252 | the last-wins deduplication yields the same properties for every order of the control's states |
| PushPullAgreement.LiveReportIsAnswered | bin/src/state-reporter.js:524-535 | a live value is answered as is, except a temperature, which differs from the answer by at most 0.05 and equals it exactly on multiples of a tenth |
| PushPullAgreement.ObservationIsAnswered | bin/src/state-reporter.js:394-460 | whatever the reporter observes for a cache event is, up to quantisation, what ReportState answers from the same cache |
| PushPullAgreement.GarageRowParts | bin/src/state-reporter.js:594-1281 | a half-open blind shown as a garage door with a mode: the mode is pushed and not answered |
| PushPullAgreement.TenthsPart | bin/src/state-reporter.js:524-535 | 21.34 degrees are pushed as 21.3 and answered as 21.34 |
| PushPullAgreement.EmptyMoodsRowParts | bin/src/directive-router.js:4241-4757 | for an empty activeMoods text a certain OFF is in the snapshot and not in the report |
| PushPullAgreement.NumberHidesTextParts | bin/src/state-reporter.js:207-252 | a number and a mood text cached for one state: an answer that is never pushed |
| PushMapping.CurrentPropertiesForDevice | bin/src/state-reporter.js:207-252 | the loops over states and filtered properties compute the snapshot the agreement lemmas are about |
| RateControl.FloorAndNoRepeats | bin/src/state-reporter.js:448-481 | in every run two successive reports of one key never carry equal values and, on throttled keys, are at least the interval apart |
| RateControl.ReachableKeyInv | bin/src/state-reporter.js:537-577 | in every reachable state a held value differs from the last one sent and its deadline is the end of that window, however often it was overwritten |
| RateControl.NewestValueArrivesIff | bin/src/state-reporter.js:448-588 | in every run, once the windows have closed, Alexa holds the newest value if and only if the change did not return to the last-sent value while another was held, and no deferred value was dropped for a disabled device |
| RateControl.NewestValueArrivesWhileEnabled | bin/src/state-reporter.js:72-82 | without reconfiguration the newest value arrives if and only if the guard of the duplicate branch did not meet a held value |
| RateControl.ReturnInsideWindowSendsStaleValue | bin/src/state-reporter.js:448-456 | A, B, A inside one window: B is what is sent last |
| RateControl.AdmitAllIsRun | bin/src/state-reporter.js:442-481 | one event with several properties is the run of its single observations, so the run results cover it |
| RateControl.QuantiseReading | bin/src/state-reporter.js:519-535 | quantising is idempotent, moves a temperature by at most half a step and changes exactly what is off the tenths |
| StateReporter.StateReporter.OnCacheChange | bin/src/state-reporter.js:394-482 | the handler turns the limiter, the log and the clock into those of the run of its observations |
| StateReporter.StateReporter.Flush | bin/src/state-reporter.js:564-588 | the timer callback is the firing step: forget the held value, send it only if the device is still enabled |
| StateReporter.StateReporter.OnDevicesChange | bin/src/state-reporter.js:314-336 | replacing the device rows rebuilds the index and touches neither what is held nor what was sent |
| StateReporter.IndexIsExact | bin/src/state-reporter.js:314-336 | the reverse index holds exactly the state UUIDs of enabled devices, each entry naming a device and a state that own it |
| StateCache.ChangesAreTransitions | bin/src/state-cache.js:40-93 | the changes emitted for a UUID are exactly the successive unequal pairs of the values it showed, and the cache holds the last one |
| StateCache.ReplayGivesCache | bin/src/state-cache.js:32-39 | a listener that knows the first value and applies the changes ends with the cached value |
| StateCache.DumpEmitsDifferences | bin/src/miniserver-poller.js:17-23 | a full re-dump emits exactly the differences since the previous one, once each and in order |
| StateCache.SecondDumpIsSilent | bin/src/miniserver-poller.js:17-23 | dumping the same table again emits nothing and changes nothing |
| StateCache.BatchesDoNotMatter | bin/src/state-cache.js:40-93 | how events are cut into batches changes neither the cache nor the emitted changes |
| StateCache.MiniserverStateCache.Ingest | bin/src/state-cache.js:40-93 | value and text batches update their own table and emit their own transitions; other kinds are only counted |
| Scaling.BrightnessRoundTrip | bin/src/directive-router.js:314-326 | brightness to position to brightness is the identity on spans of at least 100 and off by at most 50/span + 1/2 otherwise |
| Scaling.PositionRoundTrip | bin/src/directive-router.js:314-326 | position to brightness to position is the identity on spans of at most 100 |
| Scaling.WriteMonotone | bin/src/directive-router.js:321-326 | a brighter request never sends a lower position |
| Scaling.ReadMonotone | bin/src/directive-router.js:314-320 | a higher position never reads as darker |
| Scaling.DimmerWriteReadBack | bin/src/directive-router.js:2372-2380 | on spans of at least 100, with brightness 0 sent as off, the settled dimmer reads back as the requested brightness and rests at 0 exactly for 0 |
| Scaling.LowRequestReadsOffIff | bin/src/directive-router.js:321-326 | on a coarse dimmer a positive request lands on position 0 exactly when request times span is below 50 |
| RangeControl.SentValueIsItsOwnSnap | bin/src/directive-router.js:2683-2692 | the value sent to a ValueSelector is in its live bounds, within half a step of the clamped request and a fixed point of snapping |
| RangeControl.SentValueMonotone | bin/src/directive-router.js:2647-2692 | a larger request of the same kind never sends a smaller value |
| RangeControl.IncreaseOnlyNeverLowersIff | bin/src/directive-router.js:2650-2672 | on an increase-only control no accepted adjustment lowers the value if and only if the value is not above its own snap |
| RangeControl.WriteSettleRead | bin/src/directive-router.js:2697-2813 | what was echoed is read back once the control settled, on either axis, unless the kind mirrors only when writing, the flag is set and the clamped and snapped request is not the middle of the range |
| RangeControl.InvertedSelectorReadsBackMirrored | bin/src/directive-router.js:2697-2813 | an inverted ValueSelector asked for 30 is sent 70 and reads back 70 |
| RangeControl.HandleSetRangeValue | bin/src/directive-router.js:2623-2765 | the step-by-step handler computes the outcome the range lemmas are about |
| ColorText.ParseInvertsCommand | bin/src/directive-router.js:4769-4804 | every hsv() and temp() command is read back as the mode it was built for |
| ColorText.SetBrightnessChangesOnlyBrightness | bin/src/directive-router.js:2400-2421 | for every cached text, reading the command back gives the requested brightness and exactly the old hue and saturation, or kelvin |
| ColorText.BrightnessSessionsDoNotDrift | bin/src/directive-router.js:2400-2421 | a second brightness makes the first irrelevant, and going back restores the state |
| ColorText.AdjustBrightnessReadsBack | bin/src/directive-router.js:2351-2370 | for every cached text and delta the command reads back in range, within half a unit of the clamped sum, with no other dimension moved |
| ColorText.AdjustingBackRestores | bin/src/directive-router.js:2351-2370 | a whole adjustment that stays in range is undone by the opposite one |
| ColorText.SetColorReadsBack | bin/src/directive-router.js:2452-2477 | a colour reads back within half a degree and half a percent, and sending what was read back changes nothing |
| ColorText.TemperatureKeepsBrightness | bin/src/directive-router.js:2507-2581 | a temperature command keeps a positive brightness, never leaves the light dark and stays in the fixture's range |
| SceneList.ParseInvertsPrint | bin/src/directive-router.js:4806-4832 | the parser inverts the escaping printer on every list of ids and non-empty names |
| SceneList.ReprintingIsStable | bin/src/directive-router.js:4806-4832 | on every text, printing what was understood and parsing it again understands the same scenes |
| SceneList.ParseSceneList | bin/src/directive-router.js:4816-4832 | the matching loop pushes exactly the entries found from the left |
| Relay.SlotChangesHandsIff | bridge/src/routing.js:34-72 | in every run a slot changes hands exactly when its owner's close runs or a hello for its user finds the owner closed or stale |
| Relay.SilentSlotStays | bridge/src/routing.js:34-60 | while the owner says nothing, no refusal, timer, dispatch or other socket touches the slot it keeps |
| Routing.RoutingTable.Admit | bridge/src/routing.js:34-52 | the method makes the decision and the table of the specification |
| Dispatch.RejectAllSettlesExactly | bridge/src/dispatch.js:43-56 | a rejection settles every dispatch of that user, as given, and touches no other |
| Dispatch.DispatchRegistry.RejectAllForUser | bridge/src/dispatch.js:43-56 | deleting while walking the map leaves exactly the registry without that user's entries |
| Dispatch.DispatchRegistry.Resolve | bridge/src/dispatch.js:32-39 | a response settles its awaiter once and is ignored when late |
| Relay.ExactlyOnce | bridge/src/dispatch.js:21-56 | under every interleaving the registry holds exactly the unsettled dispatches, each with its timer armed and its user's slot present, and nothing settles twice |
| Relay.SettledForever | bridge/src/dispatch.js:21-39 | a settled dispatch is never settled again in any continuation |
| Relay.PendingCanExpire | bridge/src/dispatch.js:21-30 | whoever waits has an armed timer, and its firing at or after the deadline settles it as timed out |
| Relay.CloseTouchesOnlyTheOwner | bridge/src/ws-handlers.js:322-352 | the close of a displaced or refused socket changes neither slots nor dispatches; the owner's gives up its slot and fails exactly its user's dispatches |
| Relay.FailedSendSparesOthersIff | bridge/src/http-handlers.js:160-176 | a failed send leaves the other dispatches alone if and only if none of them waits for the same user |
| Relay.FailedSendHitsEarlierDispatch | bridge/src/http-handlers.js:172-176 | two dispatches for one user: the failed send of the second also fails the first |
| Bridge.Bridge.HandleMessage | bridge/src/ws-handlers.js:124-320 | the message handler, before and after the handshake, is the receive step and keeps the invariant |
| Bridge.Bridge.HandleClose | bridge/src/ws-handlers.js:322-352 | the close handler is the close step and keeps the invariant |
| Bridge.Bridge.HandleDispatch | bridge/src/http-handlers.js:155-176 | looking up the socket, registering and sending is the dispatch step; nothing is registered for an offline plugin |
| Bridge.Bridge.SendPing | bridge/src/ws-handlers.js:98-109 | a ping arms the pong deadline only if none is running |
| LiveOwner.LiveOwnerKeepsSlot | bridge/src/routing.js:34-60 | in every run in which the plugin answers its pings in time it owns its slot on an open socket, every other hello for its user is refused, and no heartbeat timer can close it |
| LiveOwner.StepKeepsLiveInv | bridge/src/ws-handlers.js:98-116 | every step keeps: the slot was refreshed no earlier than one interval before the oldest unanswered ping, and the pong deadline counts from such a ping |
| LiveOwner.SlowAnswerLosesSlot | bridge/src/routing.js:22-30 | the bound is exact: for all settings beyond either half of it some plugin that answers every ping in its time loses its slot, to a newcomer or to the pong deadline |
| BridgeClient.ReconnectLifecycle | bin/src/bridge-client.js:116-215 | in every run at most one of a held socket and an armed timer, exactly one when neither stopped, suspended nor given up; one socket at most; the backoff is min(initial times 2^k, max) and no armed delay exceeds max |
| BridgeClient.NothingOpensAfterStop | bin/src/bridge-client.js:168-194 | after stop() or a version mismatch no socket is created in any continuation |
| BridgeClient.ResumedGivesUpIff | bin/src/bridge-client.js:461-494 | in every run of a client switched on again while its old socket closes: it has given up after that close if and only if the code is 1000, 4002 or 4003 and no reconnect was forced, else a retry is armed |
| BridgeClient.ResumeConnectsIff | bin/src/bridge-client.js:159-165 | switching on again connects or schedules a retry if and only if the old socket is already gone |
| BridgeClient.QuickToggleGivesUp | bin/src/bridge-client.js:133-166 | off and on before the close event: the client has given up with the switch on |
| BridgeClient.SuspendedOpensIff | bin/src/bridge-client.js:626-639 | while suspended a socket opens if and only if a reconnect is forced and the old socket is gone |
| BridgeClient.ForcedWhileOff | bin/src/bridge-client.js:626-639 | switched off, old socket gone, reconnect forced: a second socket is open while the switch is off |
| BridgeClient.BridgeClient.FinishClose | bin/src/bridge-client.js:461-494 | the part of onClose behind its await is the settling step |
| BridgeClient.BridgeClient.SetEnabled | bin/src/bridge-client.js:133-166 | the master switch is the switch step |
| BridgeClient.BridgeClient.ForceReconnect | bin/src/bridge-client.js:626-639 | a forced reconnect is the forcing step |
| Readmission.AtMostNRefusals | bin/src/bridge-client.js:681-695 | in every run of client and relay on one clock in which the old socket is silent and nobody forces a reconnect or turns the switch on, dials failing as they may: if n successive shortest delays exceed the staleness window, at most n dials, the first n, are refused before one is admitted |
| Readmission.NextDialIsAdmitted | bridge/src/routing.js:34-52 | in every such run the dial after those n takes the slot whenever its hello arrives, unless somebody else has it |
| Readmission.StepIsPaced | bin/src/bridge-client.js:196-215 | every client step other than a welcome, a forced reconnect and the switch keeps the pace: each dial costs at least its doubled shortest delay |
| Readmission.RestartStarts | bridge/src/routing.js:34-52 | the runs exist: a restarted plugin whose former process still owns the slot is such a start |
| Readmission.RefusalsAttained | bin/src/bridge-client.js:681-695 | with the shortest jitter and no latency some run of both machines refuses as many dials as the sums allow |
| Readmission.SevenRefusalsByDefault | bin/src/bridge-client.js:681-695 | with 1 s, 60 s and 60 s at most seven dials of a client that has not retried yet are refused in any such run, and some run refuses seven |
| EventTables.ValuesRoundTrip | bin/src/miniserver-events.js:44-55 | decoding the encoding of any value events returns the list |
| EventTables.ValuesAreAllBuffers | bin/src/miniserver-events.js:44-55 | every buffer of a multiple of 24 bytes is the encoding of what it decodes to |
| EventTables.TextsRoundTrip | bin/src/miniserver-events.js:63-80 | decoding the encoding of any text events returns the list, whatever the padding bytes are and whether or not the last entry is padded |
| EventTables.DecodedTextsWereEncoded | bin/src/miniserver-events.js:57-80 | a text buffer that decodes was laid out as documented |
| EventTables.RecordsRoundTrip | bin/src/miniserver-events.js:97-135 | decoding encoded day timers or weather records returns them; fewer bytes than a header at the end are ignored |
| EventTables.DecodedRecordsWereEncoded | bin/src/miniserver-events.js:97-135 | a day-timer or weather buffer that decodes is a run of complete records and a short tail |
| EventTables.UuidInjective | bin/src/miniserver-events.js:26-38 | no two UUIDs are rendered as the same text |
| EventTables.DecodeValueEvents | bin/src/miniserver-events.js:44-55 | the loop stays inside the buffer, advances, and throws exactly when the length is no multiple of 24 |
| EventTables.DecodeTextEvents | bin/src/miniserver-events.js:63-80 | the loop stays inside the buffer, advances, and computes the decoding the text lemmas are about |
| EventTables.DecodeDaytimerEvents | bin/src/miniserver-events.js:97-112 | the same for day timers |
| EventTables.DecodeWeatherEvents | bin/src/miniserver-events.js:118-135 | the same for weather |
| MiniserverLink.DeliversInOrder | bin/src/miniserver-ws.js:244-317 | for every stream of header/payload pairs, estimated headers and keepalives the delivered payloads are the sent ones in order and no header is left over |
| MiniserverLink.SettlesExactlyOnce | bin/src/miniserver-ws.js:223-242 | in every run the queue is exactly the set of unsettled commands with their timers armed, and nothing settles twice |
| MiniserverLink.StaysInSyncIff | bin/src/miniserver-ws.js:335-385 | a step keeps the queue in the Miniserver's order if and only if it is not a timeout, an unparseable answer, an unsolicited response to a waiting command or a stop with commands waiting |
| MiniserverLink.FifoCorrelation | bin/src/miniserver-ws.js:335-385 | in every run of such steps from a new client, every command sent waits, or was settled exactly once, as a record of the wire alone tells: the k-th by the k-th answer, which resolves it, or by a close that came first |
| MiniserverLink.LateAnswerShifts | bin/src/miniserver-ws.js:223-242 | a command that timed out: its late answer resolves the next command |
| MiniserverLink.DrainSettlesAll | bin/src/miniserver-ws.js:387-403 | a close or a stop settles every waiting command with its reason and nothing else |
| MiniserverLink.MiniserverWsClient.HandleMessage | bin/src/miniserver-ws.js:244-317 | the handler moves the pending header as specified, passes text frames to the command queue and emits the rest |
| MiniserverLink.MiniserverWsClient.SendPlainCommand | bin/src/miniserver-ws.js:223-242 | a command is queued with its timer, and taken out again when the send throws |
| LinkTable.RowsStayComplete | aws/lambda/oauth-handler/index.js:850-867 | in every interleaving no row without skillSecret and install appears, a row is flagged exactly while marked since its last grant, and lwaRevokedAt is that first marking |
| LinkTable.CleanedRowsWereFlagged | aws/lambda/oauth-handler/index.js:995-1013 | every row a clean('revoked') removed was flagged at its own delete |
| LinkTable.CleanDeletesIffMarked | aws/lambda/oauth-handler/index.js:995-1013 | a candidate is deleted if and only if a marking landed on it since its last grant, whatever the scan saw |
| LinkTable.RelinkedRowSurvives | aws/lambda/alexa-handler/index.js:497-525 | a row re-linked after the scan survives in every continuation in which no marking lands after the grant |
| LinkTable.LateMarkingCostsRelinkedRow | aws/lambda/oauth-handler/index.js:755-785 | whenever an older read is still in flight, its late marking lets the clean delete the re-linked row with its new token |
| LinkTable.LateMarkingIsReachable | aws/lambda/oauth-handler/index.js:755-785 | two fan-outs that read the same dying token reach such a state |
| LinkTable.FanOutFlagsExactlyTheDead | aws/lambda/oauth-handler/index.js:752-790 | a fan-out flags exactly the recipients whose token is dead and leaves every other attribute alone |
| LinkTable.UsersTable.FanOut | aws/lambda/oauth-handler/index.js:750-830 | the loop marks as specified, and delivered plus failed is the number of recipients |
| LinkTable.UsersTable.HandleClean | aws/lambda/oauth-handler/index.js:981-1028 | with nothing in between, a clean removes exactly its candidates |
| LinkCap.OvershootBound | aws/lambda/oauth-handler/index.js:372-392 | with N requests in flight the distinct installations never exceed limit + N - 1, plus one per check that failed open |
| LinkCap.OvershootAttained | aws/lambda/oauth-handler/index.js:372-413 | for every limit and N the bound is reached |
| LinkCap.LinkedAlwaysPasses | aws/lambda/oauth-handler/index.js:377-386 | an installation that is linked passes every later check in every continuation in which it is not unlinked |
| Locale.MatchRefinesLookup | aws/lambda/oauth-handler/i18n.js:373-381 | for every tag exact-then-primary is the lookup of section 3.4 of RFC 4647 |
| Locale.PickIsBestMatch | aws/lambda/oauth-handler/i18n.js:349-383 | for every header the result is the lookup of the entry with the highest positive q among matchable entries, earliest on ties, else the default |
| Locale.PickLocale | aws/lambda/oauth-handler/i18n.js:349-383 | the parsing loop, the sort and the early-return scan compute that result |

## Left out

- Sockets, HTTP, fetch, file and Perl helpers, DynamoDB and SSM clients: they are steps, parameters or logs.
- HMAC, AES, RSA, JWT, JSON and UTF-8: the Miniserver's text frames enter as already parsed values, texts of event tables as bytes.
- Non-finite numbers and IEEE rounding: numbers are reals; the quantised temperature is the exact tenth.
- Integers of more than 308 digits, which JavaScript turns into Infinity, in scene ids, mood ids and q values.
- Unicode white space and Unicode lower-casing: ASCII only.
- `parseActiveMoods`: a parameter that maps the empty text to no mood.
- The sanitising of device rows and the TYPE_MAP itself: lemmas name what they need of a row; device UUIDs find their first row.
- `dispatchSnapshot` handing its reports over outside the rate control, the context properties of a ChangeReport, timestamps and message ids.
- Discovery, friendly names, presets, HTML pages, translation texts, pair codes, the health snapshot, report forwarding and pairings display data.
- PushPullAgreement.SnapshotEqualsReport: says nothing about a Jalousie or Window shown as a garage door with a mode; PushEqualsPullIff does.
- PushPullAgreement.KnownIsPushedIff: leaves out the same rows.
- RangeControl.WriteSettleRead: a gate sent to a partial position may stop anywhere, so only its two ends are read back.
- The two window-state parsers are the same text twice in the source and one function here; their agreement is by construction.
- LiveOwner.LiveOwnerKeepsSlot: the plugin is assumed to keep its socket open and to send well-formed frames; latency and interval jitter are bounds on the run.
- Readmission.AtMostNRefusals: both clocks run at the same rate; the client's dials reach the bridge as numbered sockets, not before they are dialled.
- BridgeClient.ReconnectLifecycle: `start()` is called once and the switch is not turned on before it; switching on earlier would open a second socket.
- LinkCap.OvershootBound: scans are atomic; the paginated scan can see a table that never existed.
- LinkTable.RowsStayComplete: rows are created by linking only; the update of a missing item that a condition would let through is modelled, other writers are not.
- StateCache.MiniserverStateCache.Ingest: does not model the updatedAt and lastEventAt stamps.
- MiniserverLink.FifoCorrelation: the Miniserver is assumed to answer commands in the order in which it received them.
