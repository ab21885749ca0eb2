# Car environment monitor: alert engine

A Dafny model of the decision core of `main-carenviroment-monitor.js`, the
in-car monitor. The monitor reads a heat index (WBGT) and a CO2
concentration and classifies each into a severity level 0..5. It shows the
two levels as a traffic-light pattern on an eight-pixel NeoPixel strip. It
decides whether to blink the strip red and sound the buzzer, either because
of the readings or because a remote flag asks for it. It also caches the
last GPS fix read from the serial NMEA 0183 stream.

Modules:

- `Wrappers`: the `Option` type. A reading that may be `null` is an
  `Option<real>`, and so is a coordinate that may be `null`.
- `Classifier`: the descending scans over `wbgtline` and `co2line`.
  - `Level` is the specification; `ScanLevel` is the loop, proved against it.
- `Renderer`: `decideRgb` and `setPattern`.
  - Colours are 32-bit words, as JS bit operators treat them.
  - Bytes are 8-bit.
  - `GrbBytes` and `Reassemble` are the byte encoding and its decoding.
- `Alert`: the module-level flags, as the fields of the class `AlertEngine`.
  - `CheckSignalSituation`, `RunAlertCycle` and `RemoteUpdate` are its handlers.
  - Each handler is proved against the pure flag transitions `AfterSignal` and `AfterRemote`.
  - Hardware writes are returned as a list of `Command`s rather than performed.
  - The timer queue of `setTimeout` is the ghost counter `pendingTimers`.
    - An iteration that reschedules adds one timer.
    - `TimerFired` removes the timer that fired before running the iteration.
    - A direct start through the `if(!alertCycleActive)` guard removes nothing.
  - The invariant `Valid` keeps the counter at 1 while a loop runs and at 0 otherwise.
    A start that skipped the guard would leave two timers pending and break it.
  - `Valid` also says that a loop is running whenever blinking or the buzzer is wanted.
- `Gps`: `split`, `parseNmeaSentence` and the serial-line cache `GpsCache`.
  - The cache has the freshness test of the reporting path.

## Model

| member | source | states |
|---|---|---|
| Classifier.HighestAbove | main-carenviroment-monitor.js:231-240 | the scan from index `top` down returns the highest index whose breakpoint the reading strictly exceeds, and no index above it is exceeded; 0 when none is |
| Classifier.Level | main-carenviroment-monitor.js:230-251 | the level is at most 5; its breakpoint is exceeded when it is positive, and no higher breakpoint is exceeded |
| Classifier.ScanLevel | main-carenviroment-monitor.js:231-240 | the descending `for` loop with its two `break`s writes exactly `Level` |
| Classifier.AbsentIsLevelZero | main-carenviroment-monitor.js:236 | a missing reading (null) is level 0 |
| Classifier.LevelMonotone | main-carenviroment-monitor.js:231-251 | a larger reading never gets a lower level, whatever the table |
| Classifier.LevelInterval | main-carenviroment-monitor.js:230-251 | for a rising table, level k holds exactly when line[k] < x <= line[k+1] (open at the bottom for k = 0, at the top for k = 5) |
| Classifier.TablesIncreasing | main-carenviroment-monitor.js:230-241 | both breakpoint tables rise strictly |
| Classifier.BoundaryLevels | main-carenviroment-monitor.js:230-251 | breakpoints are exclusive: WBGT 20 is level 0 and 22 is level 1; CO2 500 is level 0, 501 is level 1 and 5000 is level 4 |
| Renderer.SignalShape | main-carenviroment-monitor.js:262 | the signal table has six rows of four palette indices, each below 4 |
| Renderer.Palette | main-carenviroment-monitor.js:280-293 | `rygValue` has four entries: off, one of the four greens, one of the two yellows, and red |
| Renderer.Block | main-carenviroment-monitor.js:295-297 | one level's block has four colours, each taken from the palette |
| Renderer.Compose | main-carenviroment-monitor.js:278-302 | the pattern has one colour per pixel, eight in all |
| Renderer.PackChannels | main-carenviroment-monitor.js:268-270 | the three channels setPattern extracts hold exactly the colour's low 24 bits |
| Renderer.ChannelsOfPack | main-carenviroment-monitor.js:268-270 | extracting the channels of a packed colour gives back each byte |
| Renderer.GrbBytes | main-carenviroment-monitor.js:264-276 | the byte stream has three bytes per colour |
| Renderer.GrbBytesAt | main-carenviroment-monitor.js:266-273 | colour k occupies bytes 3k, 3k+1 and 3k+2, as green, red and blue |
| Renderer.GrbRoundTripAt | main-carenviroment-monitor.js:264-276 | decoding colour k of the stream recovers colour k's low 24 bits |
| Renderer.GrbRoundTrip | main-carenviroment-monitor.js:264-276 | decoding the whole stream recovers every colour's low 24 bits |
| Renderer.ReassembleRoundTrip | main-carenviroment-monitor.js:264-276 | encoding a decoded stream gives the same bytes, so the encoding is one-to-one on 24-bit colours |
| Renderer.GrbBytesSnoc | main-carenviroment-monitor.js:271-273 | pushing a colour appends its green, red and blue bytes |
| Renderer.SetPattern | main-carenviroment-monitor.js:264-276 | the `for` loop's pushes build exactly `GrbBytes` of the pattern |
| Renderer.PushBlock | main-carenviroment-monitor.js:295-300 | one of the two four-step loops appends exactly that level's block |
| Renderer.FillPalette | main-carenviroment-monitor.js:280-293 | the `if` chain fills `rygValue` with exactly `Palette` of the light reading |
| Renderer.DecideRgb | main-carenviroment-monitor.js:278-303 | the colours sent are the heat block followed by the CO2 block, and the bytes are their encoding |
| Renderer.ComposeColours | main-carenviroment-monitor.js:295-300 | every pixel is one of the four palette colours |
| Renderer.RedIgnoresLight | main-carenviroment-monitor.js:280-293 | which pixels are red does not depend on the light reading |
| Renderer.LevelFiveBlock | main-carenviroment-monitor.js:262 | level 5 shows off, red, off, off in its half of the strip |
| Renderer.DefaultLight | main-carenviroment-monitor.js:278 | at the default reading 500 the palette uses green 0x002000 and yellow 0x1e1400, and levels 0 and 0 give green at both ends of both blocks |
| Renderer.PaletteDimsWithLight | main-carenviroment-monitor.js:280-293 | a larger `cds` reading never selects a numerically larger green or yellow |
| Renderer.FullPatternBytes | main-carenviroment-monitor.js:264-276 | a full pattern is sent as 24 bytes |
| Alert.AfterSignal | main-carenviroment-monitor.js:207-229 | in the high band the situational cause and the buzzer are set and blinking is untouched; otherwise the situational cause is cleared, the buzzer follows the remote cause, and blinking follows the mid band; the remote cause never changes; the buzzer stays tied to its causes |
| Alert.AfterRemote | main-carenviroment-monitor.js:409-421 | "TRUE" sets the remote cause and the buzzer; "FALSE" clears the remote cause and leaves the buzzer only if the situational cause holds; any other outcome changes nothing; blinking and the situational cause never change |
| Alert.ReplayKeepsBuzzerCause | main-carenviroment-monitor.js:206-229 | over any interleaving of readings and remote responses, the buzzer is on exactly when one of its two causes is |
| Alert.SilencedByQuietReadingAndFalse | main-carenviroment-monitor.js:214-220 | a withdrawn remote flag and a reading outside the high band silence the buzzer, in either order |
| Alert.HighReadingOutlastsFalse | main-carenviroment-monitor.js:207-213 | after a high-band reading, a withdrawn remote flag leaves the buzzer on |
| Alert.StepsIdempotent | main-carenviroment-monitor.js:206-229 | a repeated reading or a repeated response changes nothing more |
| Alert.AlertEngine.constructor | main-carenviroment-monitor.js:40-50 | all flags start false, the levels start at 0 and 0, no loop is scheduled, and the invariant holds |
| Alert.AlertEngine.RunAlertCycle | main-carenviroment-monitor.js:177-204 | the cycle runs exactly while blinking or the buzzer is wanted. When it stops, it renders the stored levels, writes buzzer 0 and schedules nothing. Otherwise it flips the light, flips the buzzer phase only while the buzzer is wanted, and adds exactly one pending timer. The flags are unchanged |
| Alert.AlertEngine.TimerFired | main-carenviroment-monitor.js:203 | the scheduled call runs one iteration; afterwards the loop is running exactly while blinking or the buzzer is wanted, exactly one timer is pending then and none otherwise, and the invariant is kept |
| Alert.AlertEngine.Toggle | main-carenviroment-monitor.js:186-201 | the light phase flips; the buzzer phase flips exactly when the buzzer is wanted; the writes are the red/off strip and the buzzer pin |
| Alert.AlertEngine.StartCycle | main-carenviroment-monitor.js:211-224 | with a loop running it changes nothing, so no second timer is queued; otherwise it runs one iteration, and afterwards a loop is running with exactly one timer pending |
| Alert.AlertEngine.CheckSignalSituation | main-carenviroment-monitor.js:206-253 | the flags become `AfterSignal`; a high reading keeps the stored levels and leaves a loop running; otherwise the levels become `Level` of both readings, a loop starts only if blinking begins with none running, and the stored levels are rendered last; the invariant is kept |
| Alert.AlertEngine.RaiseSituation | main-carenviroment-monitor.js:207-213 | the situational cause and the buzzer are set and a loop is running |
| Alert.AlertEngine.ClearSituation | main-carenviroment-monitor.js:214-220 | the situational cause is cleared and the buzzer then follows the remote cause; it is never switched on |
| Alert.AlertEngine.FollowMidBand | main-carenviroment-monitor.js:222-229 | blinking follows the mid band, and starting to blink starts a loop if none runs |
| Alert.AlertEngine.ClassifyAndRender | main-carenviroment-monitor.js:230-252 | the stored levels become `Level` of each reading and the pixels are their rendering |
| Alert.AlertEngine.RemoteUpdate | main-carenviroment-monitor.js:399-423 | the flags become `AfterRemote`; a loop starts only on "TRUE" with none running; the invariant is kept |
| Gps.Split | main-carenviroment-monitor.js:367 | splitting gives at least one piece and no piece holds the separator |
| Gps.SplitCount | main-carenviroment-monitor.js:367-370 | there is one more field than there are commas |
| Gps.JoinSplit | main-carenviroment-monitor.js:367 | joining the fields with commas gives the sentence back |
| Gps.SplitPrefix | main-carenviroment-monitor.js:367 | a comma-free prefix lands at the head of the first field |
| Gps.SplitJoin | main-carenviroment-monitor.js:367 | splitting comma-joined comma-free fields gives those fields back |
| Gps.ConvertNmeaToDecimal | main-carenviroment-monitor.js:335-336 | an empty raw field gives null; otherwise the value is the conversion of the field |
| Gps.ParseNmeaSentence | main-carenviroment-monitor.js:361-397 | a result exists exactly for a `$GNRMC`/`$GPRMC` sentence with at least 12 fields. Validity is exactly status "A". Coordinates are present exactly for a valid fix whose fields 3 to 6 are all non-empty, and are then the conversions of those fields |
| Gps.JoinedRmcPrefix | main-carenviroment-monitor.js:363 | a sentence assembled with an RMC tag first passes the prefix test |
| Gps.ParseRmcFields | main-carenviroment-monitor.js:361-397 | an RMC sentence assembled from 12 or more comma-free fields is accepted, is valid exactly when field 2 is "A", and has coordinates, the conversions of fields 3-4 and 5-6, exactly when it is valid and fields 3 to 6 are all non-empty |
| Gps.FreshWindow | main-carenviroment-monitor.js:121 | with the port open and a valid fix cached, the cache is fresh exactly while the fix is less than 23 seconds old: fresh at 22 seconds, stale at 23 |
| Gps.GpsCache.IsFresh | main-carenviroment-monitor.js:121 | a fix is reported as present only while the port is open and the cached fix is valid |
| Gps.GpsCache.constructor | main-carenviroment-monitor.js:25-31 | the port is inactive and the cache invalid, with coordinates 0 and timestamp 0 |
| Gps.GpsCache.PortOpened | main-carenviroment-monitor.js:60-61 | the port becomes active and the cache is untouched |
| Gps.GpsCache.PortFailed | main-carenviroment-monitor.js:65-66 | the port becomes inactive and the cache is untouched |
| Gps.GpsCache.OnLine | main-carenviroment-monitor.js:71-81 | the result is the parse of the line. A rejected line changes nothing. An accepted one sets validity. Only a valid one replaces the coordinates and stamps the time. After an accepted line the cache is fresh exactly when the port is active and the fix valid |
| Gps.VoidFixHasNoCoordinates | main-carenviroment-monitor.js:379-392 | status "V" gives an invalid fix with null coordinates, even when all coordinate fields are present |
| Gps.ValidFixWithoutCoordinates | main-carenviroment-monitor.js:385-391 | status "A" with an empty latitude field gives a valid fix whose coordinates are both null |
| Gps.ShortSentenceIgnored | main-carenviroment-monitor.js:370-372 | an RMC sentence with fewer than 12 fields is ignored |

## Left out

- Hardware and I/O are not performed; writes are returned as `Command`s in a
  fixed order. Out of scope are the I2C sensor reads, the GPIO setup, the
  serial port itself, and `init`'s start-up beeps.
- `sencingPost` and `postData` are out of scope: the JSON payload and the
  HTTP POST. Apart from that, the model covers only the freshness test
  `exist_gps` (`GpsCache.IsFresh`), which feeds the payload.
- `approximateWBGT` is not part of this model. `CheckSignalSituation`
  takes the WBGT value as a reading.
- The `fetch` of the remote flag is out of scope. `RemoteUpdate` takes the
  body text, or `None` when the request failed or answered with an HTTP error.
- Gps.ConvertNmeaToDecimal: the degrees-and-minutes arithmetic, the sign
  from the direction and the rounding to 6 decimals are a function
  parameter `convert`. The model only states when the result is null. A
  non-numeric field (NaN in JS) is not told apart from a number.
- Gps.GpsCache.OnLine: takes the line after `line.trim()`; the trimming is
  not modelled.
- Alert.AlertEngine.RunAlertCycle: one call is one atomic step. The source
  awaits between its writes, so a handler could in principle interleave
  with a running iteration; that interleaving is not modelled.
  Hardware writes never fail in the model. In the source, a rejected
  `npix.setGlobal` (:189) or `buzzer_port.write` (:198, :200) ends the
  iteration before its `setTimeout` (:203). `alertCycleActive` then stays
  true, set at :178, with no iteration scheduled. Every later
  `if(!alertCycleActive)` guard (:211, :224, :413) refuses to start a loop,
  and the buzzer pin may be left at 1. No caller awaits or catches that
  promise, so the rejection is also unhandled, which recent Node versions
  treat as fatal. After such a failure the invariant `Valid` no longer
  holds in the source: its `OneLoop` part and its "a loop runs whenever
  blinking or the buzzer is wanted" part both fail.
- `checkSignalSituation` calls `runAlertCycle` and `decideRgb` without
  awaiting them. The model completes each call before the next statement,
  so the writes of the two calls appear in program order and never mix.
- The 500 ms delay of `setTimeout` and the poll intervals (2.5 s and 20 s)
  are out of scope. Only the number of scheduled iterations is modelled,
  as `pendingTimers`.
- `console.log` and error logging are out of scope.
- The light sensor is not read anywhere in the source: every call of
  `decideRgb` uses the default 500, and so does the `Alert` module.

Where the code and its written description differ, the model follows the
code:

- The breakpoints are strict `>`. A WBGT of exactly 22 is therefore level 1,
  not 2 (`BoundaryLevels`).
- Level 5 is shown as off, red, off, off in its block, not as an all-red
  block (`LevelFiveBlock`).
- A valid RMC fix whose coordinate fields are empty has null coordinates.
  The description says a valid fix always carries coordinates
  (`ValidFixWithoutCoordinates`).
- `ClearSituation` clears the situational cause only while the buzzer is on,
  as the source does. Under the invariant `BuzzerIsEitherCause`, the cause
  can only be set while the buzzer is on, so the flags come out the same.
- A reading in the high band returns early, before both level scans and the
  render. The stored levels and the strip keep their previous values. The
  description says the levels are recomputed on every evaluation, whatever
  the band (`CheckSignalSituation` keeps `lightSignalStatus` unchanged in
  the high band).
