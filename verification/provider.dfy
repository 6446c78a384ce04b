/**
 * The text-to-speech notification provider as one reducer: each input (a
 * drone event, a quick notification, an external periodic-speech setup, or
 * the watchdog firing) maps the provider state to a new state, the
 * utterances handed to the speech engine, and the toasts shown.
 */
module TtsProvider {
  import opened Options
  import opened JavaInt
  import BatteryDebouncer
  import Phrases
  import opened PeriodicSpeech

  /**
   * What the provider reads from outside at the moment of a step: the
   * "enable speech" preference, the spoken-status interval preference in
   * seconds, the periodic-speech field toggles, and whether a calibration is
   * in progress.
   */
  datatype Env = Env(ttsEnabled: bool, spokenStatusInterval: Int32, periodic: Prefs, calibrating: bool)

  /** The drone snapshot an event arrives with. */
  datatype Drone = Drone(
    id: DroneId,
    armed: bool,
    battRemain: int,
    mode: Phrases.ApmMode,
    gpsFix: Int32,
    currentWp: Int32,
    failsafe: bool,
    failsafeReason: string)

  datatype DroneEvent =
    | InvalidPolygon
    | Arming
    | ArmingStarted
    | Battery
    | Mode
    | MissionSent
    | GpsFix
    | MissionReceived
    | HeartbeatFirst
    | HeartbeatTimeout
    | HeartbeatRestored
    | Disconnected
    | MissionWpUpdate
    | FollowStart
    | PeriodicSpeechEvent
    | Failsafe
    | OtherEvent

  /** A toast is a literal text or the localized polygon-error resource. */
  datatype Toast = TextToast(text: string) | PolygonErrorToast

  /**
   * `engine` is false when the speech engine has been discarded (its language
   * data was missing or the language is not supported); `lastBattery` is the
   * debouncer's remembered band.
   */
  datatype Provider = Provider(engine: bool, lastBattery: int, watchdog: Watchdog)

  datatype Output = Output(provider: Provider, spoken: seq<string>, toasts: seq<Toast>)

  datatype Input =
    | Event(event: DroneEvent, drone: Drone)
    | QuickNotify(text: string)
    | SetupPeriodic(interval: Int32, droneId: DroneId)
    | WatchdogFires(telemetry: Telemetry)

  function Initial(engine: bool): (p: Provider)
    ensures WellFormed(p.watchdog) && p.watchdog.pending == []
    ensures p.lastBattery == 0 && p.engine == engine
  {
    Provider(engine, 0, Idle)
  }

  /** The output gate: text reaches the engine only if it exists and speech is enabled. */
  function Speak(p: Provider, env: Env, text: string): (spoken: seq<string>)
    ensures spoken == [text] <==> p.engine && env.ttsEnabled
    ensures spoken == [] <==> !(p.engine && env.ttsEnabled)
  {
    if p.engine && env.ttsEnabled then [text] else []
  }

  function Said(p: Provider, env: Env, text: string): Output {
    Output(p, Speak(p, env, text), [])
  }

  /** First heartbeat or restored link: store the preference interval, set up the watchdog, announce. */
  function Connect(p: Provider, env: Env, d: Drone, text: string): Output {
    var w := p.watchdog.(statusInterval := env.spokenStatusInterval);
    Said(p.(watchdog := Setup(w, env.spokenStatusInterval, d.id)), env, text)
  }

  /** The event switch; the whole switch is skipped when the engine is gone. */
  function OnDroneEvent(p: Provider, e: DroneEvent, d: Drone, env: Env): (r: Output)
    ensures |r.spoken| <= 1 && |r.toasts| <= 1
    ensures r.spoken != [] ==> p.engine && env.ttsEnabled
    ensures r.provider.engine == p.engine
    ensures !p.engine ==> r == Output(p, [], [])
  {
    if !p.engine then Output(p, [], [])
    else match e
      case InvalidPolygon => Output(p, [], [PolygonErrorToast])
      case Arming => Said(p, env, Phrases.ArmedPhrase(d.armed))
      case ArmingStarted => Said(p, env, "Arming the vehicle, please standby")
      case Battery =>
        var o := BatteryDebouncer.Observe(p.lastBattery, d.battRemain);
        var p' := p.(lastBattery := o.last);
        if o.announcement.Some? then Said(p', env, o.announcement.value) else Output(p', [], [])
      case Mode => Said(p, env, Phrases.ModePhrase(d.mode))
      case MissionSent => Output(p, Speak(p, env, "Waypoints saved to Drone"), [TextToast("Waypoints sent")])
      case GpsFix => Said(p, env, Phrases.GpsPhrase(d.gpsFix))
      case MissionReceived =>
        Output(p, Speak(p, env, "Waypoints received"), [TextToast("Waypoints received from Drone")])
      case HeartbeatFirst => Connect(p, env, d, "Connected")
      case HeartbeatTimeout =>
        if env.calibrating then Output(p, [], [])
        else Said(p.(watchdog := RemoveCallbacks(p.watchdog)), env, "Data link lost, check connection.")
      case HeartbeatRestored => Connect(p, env, d, "Data link restored")
      case Disconnected => Output(p.(watchdog := RemoveCallbacks(p.watchdog)), [], [])
      case MissionWpUpdate => Said(p, env, "Going for waypoint " + IntToString(d.currentWp))
      case FollowStart => Said(p, env, "Following")
      case PeriodicSpeechEvent => Output(p, [], [])
      case Failsafe => if d.failsafe then Said(p, env, d.failsafeReason) else Output(p, [], [])
      case OtherEvent => Output(p, [], [])
  }

  /**
   * One input. A watchdog firing with nothing pending cannot happen on the
   * platform's handler, and is a no-op here.
   */
  function Step(p: Provider, input: Input, env: Env): (r: Output)
    ensures |r.spoken| <= 1 && |r.toasts| <= 1
    ensures r.spoken != [] ==> p.engine && env.ttsEnabled
    ensures r.provider.engine == p.engine
    ensures WellFormed(p.watchdog) ==> WellFormed(r.provider.watchdog)
  {
    match input
    case Event(e, d) => OnDroneEvent(p, e, d, env)
    case QuickNotify(text) => Said(p, env, text)
    case SetupPeriodic(interval, id) => Output(p.(watchdog := Setup(p.watchdog, interval, id)), [], [])
    case WatchdogFires(t) =>
      if |p.watchdog.pending| == 0 then Output(p, [], [])
      else
        assert WellFormed(p.watchdog) ==> WellFormed(Tick(p.watchdog, env.spokenStatusInterval)) by {
          if WellFormed(p.watchdog) {
            TickPreservesWellFormed(p.watchdog, env.spokenStatusInterval);
          }
        }
        Said(p.(watchdog := Tick(p.watchdog, env.spokenStatusInterval)), env, Message(env.periodic, t))
  }

  /** Without an engine no event changes anything or shows anything, and a quick notification says nothing. */
  lemma EngineAbsentIsInert(p: Provider, e: DroneEvent, d: Drone, env: Env, text: string)
    requires !p.engine
    ensures OnDroneEvent(p, e, d, env) == Output(p, [], [])
    ensures Step(p, QuickNotify(text), env) == Output(p, [], [])
  {
  }

  /** A quick notification is spoken verbatim when the gate is open and changes no state. */
  lemma QuickNotifySpeaksVerbatim(p: Provider, env: Env, text: string)
    ensures Step(p, QuickNotify(text), env).provider == p
    ensures Step(p, QuickNotify(text), env).toasts == []
    ensures Step(p, QuickNotify(text), env).spoken == (if p.engine && env.ttsEnabled then [text] else [])
  {
  }

  /** A link timeout during calibration is ignored entirely. */
  lemma TimeoutWhileCalibratingIsSilent(p: Provider, d: Drone, env: Env)
    requires env.calibrating
    ensures OnDroneEvent(p, HeartbeatTimeout, d, env) == Output(p, [], [])
  {
  }

  /** Outside calibration a link timeout announces the loss and leaves nothing pending. */
  lemma TimeoutAnnouncesAndCancels(p: Provider, d: Drone, env: Env)
    requires p.engine && !env.calibrating
    ensures var r := OnDroneEvent(p, HeartbeatTimeout, d, env);
      r.provider == p.(watchdog := p.watchdog.(pending := []))
      && r.spoken == Speak(p, env, "Data link lost, check connection.")
      && r.toasts == []
  {
  }

  /** A disconnect leaves nothing pending, says nothing, and changes nothing else. */
  lemma DisconnectCancels(p: Provider, d: Drone, env: Env)
    requires p.engine
    ensures OnDroneEvent(p, Disconnected, d, env) == Output(p.(watchdog := p.watchdog.(pending := [])), [], [])
  {
  }

  /**
   * First heartbeat and restored link both bind the drone, store the
   * preference interval (even 0), leave one callback pending exactly when
   * the interval is nonzero, and announce.
   */
  lemma ConnectSetsUpWatchdog(p: Provider, e: DroneEvent, d: Drone, env: Env)
    requires p.engine && (e == HeartbeatFirst || e == HeartbeatRestored)
    ensures var r := OnDroneEvent(p, e, d, env);
      && r.provider.watchdog.drone == Some(d.id)
      && r.provider.watchdog.statusInterval == env.spokenStatusInterval
      && r.provider.watchdog.pending
         == (if env.spokenStatusInterval == 0 then [] else [DelayMs(env.spokenStatusInterval)])
      && r.provider.lastBattery == p.lastBattery
      && r.spoken == Speak(p, env, if e == HeartbeatFirst then "Connected" else "Data link restored")
      && r.toasts == []
  {
  }

  /**
   * A battery event follows the debouncer: it announces exactly when the band
   * leaves [last, last + 1], and then remembers the new band whether or not
   * speech is enabled; only the utterance itself passes through the gate.
   */
  lemma BatteryEventDebounced(p: Provider, d: Drone, env: Env)
    requires p.engine
    ensures var r := OnDroneEvent(p, Battery, d, env);
      var band := BatteryDebouncer.Decile(d.battRemain);
      var announced := band != p.lastBattery && band != p.lastBattery + 1;
      && r.provider.lastBattery == BatteryDebouncer.Observe(p.lastBattery, d.battRemain).last
      && r.provider.lastBattery == (if announced then band else p.lastBattery)
      && r.spoken == (if announced then Speak(p, env, BatteryDebouncer.Phrase(d.battRemain)) else [])
      && r.provider.watchdog == p.watchdog
      && r.provider.engine == p.engine
      && r.toasts == []
  {
  }

  /**
   * A mode event changes no state and shows no toast; through an open gate it
   * speaks the mode's utterance, which starts with "Mode ".
   */
  lemma ModeEventReply(p: Provider, d: Drone, env: Env)
    requires p.engine
    ensures OnDroneEvent(p, Mode, d, env) == Output(p, Speak(p, env, Phrases.ModePhrase(d.mode)), [])
    ensures var r := OnDroneEvent(p, Mode, d, env);
      env.ttsEnabled ==> |r.spoken| == 1 && |r.spoken[0]| >= 5 && r.spoken[0][..5] == "Mode "
  {
  }

  /**
   * The events answered with a fixed reply leave the provider state as it
   * was, whether speech is on or off; the two mission events also show a toast.
   */
  lemma FixedEventReplies(p: Provider, d: Drone, env: Env)
    requires p.engine
    ensures OnDroneEvent(p, ArmingStarted, d, env)
      == Output(p, Speak(p, env, "Arming the vehicle, please standby"), [])
    ensures OnDroneEvent(p, MissionSent, d, env)
      == Output(p, Speak(p, env, "Waypoints saved to Drone"), [TextToast("Waypoints sent")])
    ensures OnDroneEvent(p, MissionReceived, d, env)
      == Output(p, Speak(p, env, "Waypoints received"), [TextToast("Waypoints received from Drone")])
    ensures OnDroneEvent(p, FollowStart, d, env) == Output(p, Speak(p, env, "Following"), [])
    ensures OnDroneEvent(p, InvalidPolygon, d, env) == Output(p, [], [PolygonErrorToast])
    ensures OnDroneEvent(p, PeriodicSpeechEvent, d, env) == Output(p, [], [])
    ensures OnDroneEvent(p, OtherEvent, d, env) == Output(p, [], [])
  {
  }

  /**
   * Armed state, GPS fix, waypoint and failsafe events change no state and
   * show no toast, whether speech is on or off. Through an open gate the GPS
   * event speaks the fix quality's utterance, the failsafe reason is spoken
   * only while the drone is in failsafe, and the waypoint announcement carries
   * the index, which reads back from it.
   */
  lemma SnapshotEventReplies(p: Provider, d: Drone, env: Env)
    requires p.engine
    ensures OnDroneEvent(p, Arming, d, env) == Output(p, Speak(p, env, if d.armed then "Armed" else "Disarmed"), [])
    ensures OnDroneEvent(p, GpsFix, d, env) == Output(p, Speak(p, env, Phrases.GpsPhrase(d.gpsFix)), [])
    ensures OnDroneEvent(p, Failsafe, d, env)
      == Output(p, if d.failsafe then Speak(p, env, d.failsafeReason) else [], [])
    ensures var r := OnDroneEvent(p, MissionWpUpdate, d, env);
      && r.provider == p && r.toasts == []
      && (!env.ttsEnabled ==> r.spoken == [])
      && (env.ttsEnabled ==>
            |r.spoken| == 1
            && |r.spoken[0]| > 19 && r.spoken[0][..19] == "Going for waypoint "
            && ParseInt(r.spoken[0][19..]) == Some(d.currentWp))
  {
    var text := "Going for waypoint " + IntToString(d.currentWp);
    assert text[19..] == IntToString(d.currentWp);
    ParseIntToString(d.currentWp);
  }

  /**
   * The speech preference gates only the utterance: the resulting state and
   * the toasts are the same with speech on or off, and with speech off
   * nothing is spoken.
   */
  lemma SpeechPreferenceGatesOnlyUtterances(p: Provider, e: DroneEvent, d: Drone, env: Env)
    ensures var on := OnDroneEvent(p, e, d, env.(ttsEnabled := true));
      var off := OnDroneEvent(p, e, d, env.(ttsEnabled := false));
      && off.provider == on.provider
      && off.toasts == on.toasts
      && off.spoken == []
  {
  }

  /**
   * A watchdog firing speaks the status message through the gate and rearms
   * with the stored interval exactly when the freshly read interval is
   * nonzero, so a well-formed watchdog keeps its one callback or drops it.
   */
  lemma WatchdogFiringRearms(p: Provider, t: Telemetry, env: Env)
    requires WellFormed(p.watchdog) && |p.watchdog.pending| > 0
    ensures var r := Step(p, WatchdogFires(t), env);
      && r.spoken == Speak(p, env, Message(env.periodic, t))
      && r.toasts == []
      && r.provider.lastBattery == p.lastBattery
      && r.provider.engine == p.engine
      && r.provider.watchdog.drone == p.watchdog.drone
      && r.provider.watchdog.statusInterval == p.watchdog.statusInterval
      && r.provider.watchdog.pending
         == (if env.spokenStatusInterval != 0 then [DelayMs(p.watchdog.statusInterval)] else [])
  {
    TickPreservesWellFormed(p.watchdog, env.spokenStatusInterval);
  }

  /** A firing with nothing pending, as after a disconnect, does nothing. */
  lemma StrayFiringIsInert(p: Provider, t: Telemetry, env: Env)
    requires p.watchdog.pending == []
    ensures Step(p, WatchdogFires(t), env) == Output(p, [], [])
  {
  }

  /** The provider after a sequence of inputs, each with its own environment, and all that was spoken and shown. */
  function RunInputs(p: Provider, inputs: seq<(Input, Env)>): (r: Output)
    ensures |r.spoken| <= |inputs| && |r.toasts| <= |inputs|
    ensures r.provider.engine == p.engine
    ensures !p.engine ==> r.spoken == []
    decreases |inputs|
  {
    if |inputs| == 0 then Output(p, [], [])
    else
      var o := Step(p, inputs[0].0, inputs[0].1);
      var rest := RunInputs(o.provider, inputs[1..]);
      Output(rest.provider, o.spoken + rest.spoken, o.toasts + rest.toasts)
  }

  /** At most one watchdog callback is ever pending, whatever the inputs. */
  lemma {:induction false} RunKeepsWellFormed(p: Provider, inputs: seq<(Input, Env)>)
    requires WellFormed(p.watchdog)
    ensures WellFormed(RunInputs(p, inputs).provider.watchdog)
    decreases |inputs|
  {
    if |inputs| > 0 {
      var o := Step(p, inputs[0].0, inputs[0].1);
      RunKeepsWellFormed(o.provider, inputs[1..]);
    }
  }

  /** After setup with 5 seconds, then with 0, a firing is impossible and a stray one does nothing. */
  lemma StartThenStopLeavesNothingToFire(p: Provider, id: DroneId, t: Telemetry, env: Env)
    ensures var q := RunInputs(p, [(SetupPeriodic(5, id), env), (SetupPeriodic(0, id), env)]).provider;
      q.watchdog.pending == [] && Step(q, WatchdogFires(t), env) == Output(q, [], [])
  {
    var inputs := [(SetupPeriodic(5, id), env), (SetupPeriodic(0, id), env)];
    assert inputs[1..] == [(SetupPeriodic(0, id), env)];
    assert inputs[1..][1..] == [];
    var p1 := Step(p, inputs[0].0, env).provider;
    var p2 := Step(p1, inputs[1].0, env).provider;
    assert RunInputs(p2, []).provider == p2;
    assert RunInputs(p1, inputs[1..]).provider == p2;
    assert RunInputs(p, inputs).provider == RunInputs(p1, inputs[1..]).provider;
    assert p2.watchdog.pending == [];
  }

}
