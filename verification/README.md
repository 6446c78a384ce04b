# Audible notifications of a ground-control station, modelled in Dafny

This project models the text-to-speech notification provider of the DroidPlanner/Tower
Android ground station (`TTSNotificationProvider`). The provider listens to drone events
and turns them into short spoken utterances and on-screen toasts. It keeps three pieces of
state:

- a battery discharge debouncer, which announces a battery level once per band of
  ten percent;
- a self-rescheduling "watchdog" callback on the platform message handler, which speaks
  a periodic status digest;
- whether a speech engine exists at all.

The model is one pure reducer, `TtsProvider.Step`. It takes a provider state, an input
and an environment snapshot, and returns the new state, the utterances that reach the
speech engine and the toasts shown. An input is a drone event, a quick notification, an
external periodic-speech setup, or the watchdog firing. The environment holds the
preferences and the calibration flag.

Modules:

- `Options` (`options.dfy`): an optional value.
- `JavaInt` (`java_int.dfy`): the Java `int` behaviour the provider relies on. This covers
  the 32-bit range with wrap-around, the `(int)` cast that truncates toward zero, and the
  decimal text of an `int` in string concatenation. A decimal parser is included as the
  inverse of that text.
- `BatteryDebouncer` (`battery.dfy`): `batteryDischargeNotification`.
- `Phrases` (`phrases.dfy`): `speakArmedState`, `speakMode`, `speakGpsMode`.
- `PeriodicSpeech` (`periodic.dfy`): the watchdog, `setupPeriodicSpeechOutput` and
  `speakPeriodic`. The message handler is abstracted as the list of delays of the pending
  watchdog callbacks. `postDelayed` appends one delay. `removeCallbacks` clears the list.
  A callback that fires leaves the list.
- `TtsProvider` (`provider.dfy`): `speak`, `shouldEnableTTS`, `onDroneEvent`,
  `quickNotify`, the watchdog's `run`, and the step function over all inputs.

Behaviour of the code that the model keeps:

- The battery band is `(percent - 1) / 10` truncated toward zero, so every reading from
  -8 to 10 is band 0.
- The battery utterance is `"Battery at" + percent + "%"`, with no space after "at".
- The remembered battery band moves whether or not speech is enabled. Only the utterance
  passes through the speech gate.
- The whole event switch is guarded by the engine being present. Without an engine,
  DISCONNECTED and HEARTBEAT_TIMEOUT do not cancel the watchdog, and HEARTBEAT_FIRST does
  not start it.
- A watchdog tick re-reads the interval preference only to decide WHETHER to re-post. The
  delay comes from the stored `statusInterval` field.
- HEARTBEAT_FIRST and HEARTBEAT_RESTORED store the preference interval into
  `statusInterval` even when it is 0. A direct `setupPeriodicSpeechOutput(0, d)` leaves the
  field unchanged.
- A callback can only fire while it is posted, so a firing with nothing pending is a no-op.

## Model

| member | source | states |
|---|---|---|
| JavaInt.TruncDiv | Android/src/org/droidplanner/android/notifications/TTSNotificationProvider.java:191-193 | the `(int)` cast of a quotient by a positive divisor leaves a remainder with the dividend's sign, smaller than the divisor |
| JavaInt.Wrap | Android/src/org/droidplanner/android/notifications/TTSNotificationProvider.java:259 | Java `int` results are congruent to the exact value modulo 2^32 and equal it when it is in range |
| JavaInt.NatToString | Android/src/org/droidplanner/android/notifications/TTSNotificationProvider.java:194 | the decimal text of a number is non-empty, all digits, and has no leading zero |
| JavaInt.IntToString | Android/src/org/droidplanner/android/notifications/TTSNotificationProvider.java:163 | an `int`'s text starts with a minus sign exactly when the number is negative |
| JavaInt.ParseIntToString | Android/src/org/droidplanner/android/notifications/TTSNotificationProvider.java:194 | the decimal text of any `int` reads back as that `int` |
| BatteryDebouncer.Decile | Android/src/org/droidplanner/android/notifications/TTSNotificationProvider.java:191-193 | the band of a reading is `(percent - 1) / 10` rounded toward zero, bounded on each side by the band's ten-point range |
| BatteryDebouncer.Observe | Android/src/org/droidplanner/android/notifications/TTSNotificationProvider.java:190-196 | a reading announces iff its band is neither the remembered band nor the one above it; an announcement remembers that band and speaks "Battery at<percent>%"; otherwise the remembered band is unchanged |
| BatteryDebouncer.LowReadingsShareBandZero | Android/src/org/droidplanner/android/notifications/TTSNotificationProvider.java:191-192 | readings from -8 to 10 (in particular 0 to 10) all fall in band 0 |
| BatteryDebouncer.NoRepeatWithinDecile | Android/src/org/droidplanner/android/notifications/TTSNotificationProvider.java:191-193 | right after an announcement, another reading in the same band is silent |
| BatteryDebouncer.DropOneDecileAnnounces | Android/src/org/droidplanner/android/notifications/TTSNotificationProvider.java:191 | a reading exactly one band below the remembered one always announces |
| BatteryDebouncer.RiseOneDecileSilent | Android/src/org/droidplanner/android/notifications/TTSNotificationProvider.java:192 | a reading exactly one band above the remembered one never announces |
| BatteryDebouncer.PhraseReadsBack | Android/src/org/droidplanner/android/notifications/TTSNotificationProvider.java:194 | the announcement is "Battery at", the reading, then "%", and the reading can be read back from it |
| BatteryDebouncer.RunReadings | Android/src/org/droidplanner/android/notifications/TTSNotificationProvider.java:190-196 | over a stream of readings, only readings from the stream are announced, and the final band is the band of the last announcement (or the initial one if there was none) |
| BatteryDebouncer.ConsecutiveAnnouncementsDiffer | Android/src/org/droidplanner/android/notifications/TTSNotificationProvider.java:191-193 | two consecutive announcements are never for the same band |
| BatteryDebouncer.ExampleDischarge | Android/src/org/droidplanner/android/notifications/TTSNotificationProvider.java:190-196 | from band 0, readings 95, 94, 93, 85, 84 announce at 95 and 85 only and end in band 8 |
| Phrases.ModePhrase | Android/src/org/droidplanner/android/notifications/TTSNotificationProvider.java:198-225 | every mode utterance starts with "Mode "; an unlisted mode is followed by its own declared name |
| Phrases.ReturnToHomeShared | Android/src/org/droidplanner/android/notifications/TTSNotificationProvider.java:216-219 | fixed-wing and rotor return-to-launch both give "Mode Return to home" |
| Phrases.ListedModePhrasesDistinct | Android/src/org/droidplanner/android/notifications/TTSNotificationProvider.java:200-219 | among the listed modes the utterance identifies the mode, except for the two return-to-launch modes |
| Phrases.GpsPhrase | Android/src/org/droidplanner/android/notifications/TTSNotificationProvider.java:227-239 | "GPS 2D Lock" iff fix 2, "GPS 3D Lock" iff fix 3, "Lost GPS Lock" iff any other value |
| Phrases.ArmedPhrase | Android/src/org/droidplanner/android/notifications/TTSNotificationProvider.java:182-188 | "Armed" iff armed, "Disarmed" iff not |
| PeriodicSpeech.DelayMs | Android/src/org/droidplanner/android/notifications/TTSNotificationProvider.java:272 | the delay in milliseconds is `seconds * 1000` in Java `int` arithmetic, exact for intervals up to 2147483 seconds |
| PeriodicSpeech.Setup | Android/src/org/droidplanner/android/notifications/TTSNotificationProvider.java:265-274 | binds the drone; interval 0 leaves nothing pending and the stored interval unchanged; otherwise exactly one callback pending with delay `interval * 1000` and the interval stored; the result has at most one pending callback from any prior state |
| PeriodicSpeech.Tick | Android/src/org/droidplanner/android/notifications/TTSNotificationProvider.java:258-262 | after a firing, the callback is re-posted with the STORED interval's delay iff the freshly read interval is nonzero; otherwise nothing is pending |
| PeriodicSpeech.TickPreservesWellFormed | Android/src/org/droidplanner/android/notifications/TTSNotificationProvider.java:258-262 | a tick keeps at most one callback pending: it re-posts exactly the one that fired, or leaves none |
| PeriodicSpeech.StartThenStop | Android/src/org/droidplanner/android/notifications/TTSNotificationProvider.java:265-274 | setup with 5 seconds, then with 0, leaves nothing pending and keeps interval 5 stored |
| PeriodicSpeech.Selected | Android/src/org/droidplanner/android/notifications/TTSNotificationProvider.java:245-256 | the clauses spoken are exactly those of the enabled fields, each once, in the order voltage, altitude, airspeed, signal strength |
| PeriodicSpeech.MessageAppendsEnabledClauses | Android/src/org/droidplanner/android/notifications/TTSNotificationProvider.java:244-257 | the message equals appending each enabled field's clause, in order, to an empty buffer |
| PeriodicSpeech.AltitudeAndRssiOnly | Android/src/org/droidplanner/android/notifications/TTSNotificationProvider.java:248-256 | with only altitude and signal strength enabled, the message is the altitude clause followed by the signal-strength clause |
| TtsProvider.Initial | Android/src/org/droidplanner/android/notifications/TTSNotificationProvider.java:37-52 | a new provider has band 0 remembered (the Java field default), nothing pending, and satisfies the at-most-one-pending invariant |
| TtsProvider.Speak | Android/src/org/droidplanner/android/notifications/TTSNotificationProvider.java:98-108 | text reaches the engine iff the engine is present and the speech preference is on |
| TtsProvider.OnDroneEvent | Android/src/org/droidplanner/android/notifications/TTSNotificationProvider.java:113-180 | an event yields at most one utterance and one toast, speaks only through an open gate, and does nothing at all without an engine |
| TtsProvider.Step | Android/src/org/droidplanner/android/notifications/TTSNotificationProvider.java:42-52 | every input, including a watchdog firing, emits at most one utterance and one toast, speaks only through an open gate, and preserves at most one pending callback |
| TtsProvider.EngineAbsentIsInert | Android/src/org/droidplanner/android/notifications/TTSNotificationProvider.java:98-115 | with no engine, an event changes no state and shows no toast, and a quick notification says nothing |
| TtsProvider.QuickNotifySpeaksVerbatim | Android/src/org/droidplanner/android/notifications/TTSNotificationProvider.java:276-279 | a quick notification speaks its text unchanged through the gate, shows no toast and changes no state |
| TtsProvider.TimeoutWhileCalibratingIsSilent | Android/src/org/droidplanner/android/notifications/TTSNotificationProvider.java:148-153 | a link timeout during calibration changes nothing and emits nothing |
| TtsProvider.TimeoutAnnouncesAndCancels | Android/src/org/droidplanner/android/notifications/TTSNotificationProvider.java:148-153 | outside calibration a link timeout speaks "Data link lost, check connection." and leaves nothing pending, with nothing else changed |
| TtsProvider.DisconnectCancels | Android/src/org/droidplanner/android/notifications/TTSNotificationProvider.java:159-161 | a disconnect leaves nothing pending, emits nothing, and changes nothing else |
| TtsProvider.ConnectSetsUpWatchdog | Android/src/org/droidplanner/android/notifications/TTSNotificationProvider.java:143-158 | first heartbeat and restored link bind the drone and store the preference interval; one callback with delay `interval * 1000` is pending iff the interval is nonzero; then "Connected" or "Data link restored" is spoken |
| TtsProvider.BatteryEventDebounced | Android/src/org/droidplanner/android/notifications/TTSNotificationProvider.java:126-128 | a battery event announces iff the reading's band leaves [last, last + 1]; the announcement goes through the speech gate, while the remembered band moves to the new band whether speech is on or off; the watchdog is untouched and no toast is shown |
| TtsProvider.ModeEventReply | Android/src/org/droidplanner/android/notifications/TTSNotificationProvider.java:129-131 | a mode event changes no state and shows no toast, whether speech is on or off; through the gate it speaks exactly the mode's utterance, which starts with "Mode " |
| TtsProvider.FixedEventReplies | Android/src/org/droidplanner/android/notifications/TTSNotificationProvider.java:117-170 | arming-started, both mission events, follow, invalid-polygon, periodic-speech and unlisted events give their fixed utterance (through the gate) and toast, and leave the state unchanged whether speech is on or off |
| TtsProvider.SnapshotEventReplies | Android/src/org/droidplanner/android/notifications/TTSNotificationProvider.java:120-177 | armed, GPS, waypoint and failsafe events change no state and show no toast whether speech is on or off; through the gate the GPS event speaks the fix quality's utterance, the failsafe reason is spoken only in failsafe, and the waypoint utterance carries the index, which reads back |
| TtsProvider.SpeechPreferenceGatesOnlyUtterances | Android/src/org/droidplanner/android/notifications/TTSNotificationProvider.java:98-104 | for every event, speech off gives the same state and the same toasts as speech on, and speaks nothing; the preference gates only the utterance |
| TtsProvider.WatchdogFiringRearms | Android/src/org/droidplanner/android/notifications/TTSNotificationProvider.java:241-262 | a firing speaks the status message through the gate, shows no toast, keeps the bound drone, stored interval and band, and leaves one callback pending, with the stored interval's delay, iff the freshly read interval is nonzero |
| TtsProvider.StrayFiringIsInert | Android/src/org/droidplanner/android/notifications/TTSNotificationProvider.java:159-161 | a firing with nothing pending, as after a disconnect, changes nothing and emits nothing |
| TtsProvider.RunInputs | Android/src/org/droidplanner/android/notifications/TTSNotificationProvider.java:113-180 | over a sequence of inputs, no more utterances or toasts than inputs (the per-input bound is `TtsProvider.Step`'s), and nothing is spoken without an engine |
| TtsProvider.RunKeepsWellFormed | Android/src/org/droidplanner/android/notifications/TTSNotificationProvider.java:258-274 | whatever the inputs, at most one watchdog callback is ever pending |
| TtsProvider.StartThenStopLeavesNothingToFire | Android/src/org/droidplanner/android/notifications/TTSNotificationProvider.java:265-274 | after setup with 5 seconds and then with 0, nothing is pending and a stray firing does nothing |

## Left out

- `onInit` (speech engine initialisation, language and SDK-version selection, logging) is
  platform I/O. Only its outcome is modelled: the `engine` flag of the state, chosen when
  the provider is created. In the code the engine exists from the constructor and is
  discarded later, asynchronously, when the language data is missing or the language is not
  supported, possibly after events such as a first heartbeat have started the watchdog. The
  model has no input that discards the engine mid-run. That case is still covered by the
  lemmas that hold for any `Provider`: `TtsProvider.EngineAbsentIsInert` (a disconnect then
  leaves the watchdog pending), `TtsProvider.WatchdogFiringRearms` (the watchdog keeps
  re-posting without an engine), `TtsProvider.Step` and `TtsProvider.RunKeepsWellFormed`.
- `TextToSpeech.speak` with `QUEUE_FLUSH` drops utterances that are still queued. The model
  records every utterance handed to the engine and does not model which ones are heard.
- Preference reads (`SharedPreferences`, `DroidPlannerPrefs`) and `Calibration.isCalibrating()`
  are the `Env` record supplied to each step.
- A missing periodic-speech toggle makes the Java code throw a NullPointerException while
  unboxing. The model's toggles are always present booleans.
- The voltage, altitude and airspeed numbers in the periodic message use floating-point
  truncation and Java's double-to-string conversion. Each value is an opaque text in
  `Telemetry`.
- Battery readings are integer percents. The source reads a `double`. The `(int)` cast's
  saturation for values outside the `int` range is not modelled.
- Real timing and asynchronous handler dispatch are abstracted. Pending callbacks are a list
  of delays, and firing is an explicit input. Each input runs to completion before the next
  one starts, so a firing callback's `run` never interleaves with event handling.
  `TtsProvider.RunKeepsWellFormed` (at most one callback pending) relies on this.
- The telemetry read by a firing is a free input (`WatchdogFires(telemetry)`). The model
  does not tie it to the drone bound at setup; the bound drone `watchdog.drone` is recorded
  but only the at-most-one-pending invariant reads it.
- `mode.getName()` for modes without a friendly name is the `name` carried by
  `Phrases.OtherMode`. The mode enumeration itself is not part of this model.
- Toast rendering and `R.string` lookups are toast tokens (`TextToast`, `PolygonErrorToast`).
