/**
 * The self-rescheduling periodic status speech. The platform message handler
 * is abstracted to the list of delays (in milliseconds) of the watchdog
 * callbacks it holds: posting appends one, removing the callback clears them
 * all, and a callback that fires leaves the list.
 */
module PeriodicSpeech {
  import opened Options
  import opened JavaInt

  /** The identity of the drone object whose telemetry the watchdog reads. */
  type DroneId = nat

  datatype Watchdog = Watchdog(pending: seq<Int32>, drone: Option<DroneId>, statusInterval: Int32)

  /** Nothing pending, no drone bound, and the interval field at Java's default 0. */
  const Idle: Watchdog := Watchdog([], None, 0)

  /** Seconds to milliseconds in Java `int` arithmetic, which wraps for very long intervals. */
  function DelayMs(seconds: Int32): (ms: Int32)
    ensures (ms - seconds * 1000) % TWO_32 == 0
    ensures -2147483 <= seconds <= 2147483 ==> ms == seconds * 1000
  {
    Wrap(seconds * 1000)
  }

  function PostDelayed(w: Watchdog, delay: Int32): Watchdog {
    w.(pending := w.pending + [delay])
  }

  function RemoveCallbacks(w: Watchdog): Watchdog {
    w.(pending := [])
  }

  /**
   * At most one callback is pending, and a pending one was posted with the
   * delay of the stored (nonzero) interval for a bound drone.
   */
  predicate WellFormed(w: Watchdog) {
    && |w.pending| <= 1
    && (|w.pending| == 1 ==> w.statusInterval != 0 && w.pending[0] == DelayMs(w.statusInterval) && w.drone.Some?)
  }

  /**
   * Binds the drone, drops whatever was pending and, for a nonzero interval,
   * stores it and posts one callback; from any state it yields a well-formed one.
   */
  function Setup(w: Watchdog, interval: Int32, drone: DroneId): (r: Watchdog)
    ensures r.drone == Some(drone)
    ensures WellFormed(r)
    ensures interval == 0 ==> r.pending == [] && r.statusInterval == w.statusInterval
    ensures interval != 0 ==> r.pending == [DelayMs(interval)] && r.statusInterval == interval
  {
    var bound := w.(drone := Some(drone));
    if interval == 0 then RemoveCallbacks(bound)
    else PostDelayed(RemoveCallbacks(bound.(statusInterval := interval)), DelayMs(interval))
  }

  /**
   * The watchdog after a pending callback fires: the fired callback leaves
   * the handler; it posts itself again with the STORED interval when the
   * interval read at that moment is nonzero, and removes all callbacks otherwise.
   */
  function Tick(w: Watchdog, freshInterval: Int32): (r: Watchdog)
    requires |w.pending| > 0
    ensures r.drone == w.drone && r.statusInterval == w.statusInterval
    ensures freshInterval == 0 ==> r.pending == []
    ensures freshInterval != 0 ==> r.pending == w.pending[1..] + [DelayMs(w.statusInterval)]
  {
    var fired := w.(pending := w.pending[1..]);
    if freshInterval != 0 then PostDelayed(fired, DelayMs(w.statusInterval))
    else RemoveCallbacks(fired)
  }

  /**
   * A tick keeps "at most one pending": with the interval still enabled it
   * re-posts exactly the callback that fired, otherwise it leaves none.
   */
  lemma TickPreservesWellFormed(w: Watchdog, freshInterval: Int32)
    requires WellFormed(w) && |w.pending| > 0
    ensures WellFormed(Tick(w, freshInterval))
    ensures freshInterval != 0 ==> Tick(w, freshInterval) == w
    ensures freshInterval == 0 ==> Tick(w, freshInterval) == RemoveCallbacks(w)
  {
  }

  /** Starting with interval 5 and then with interval 0 leaves nothing that could fire. */
  lemma StartThenStop(w: Watchdog, drone: DroneId)
    ensures Setup(Setup(w, 5, drone), 0, drone).pending == []
    ensures Setup(Setup(w, 5, drone), 0, drone).statusInterval == 5
  {
  }

  /** The telemetry values the periodic speech reads out, already formatted as text. */
  datatype Telemetry = Telemetry(voltage: string, altitude: string, airspeed: string, rssi: string)

  /** Which telemetry values the user chose to hear. */
  datatype Prefs = Prefs(batteryVoltage: bool, altitude: bool, airspeed: bool, rssi: bool)

  datatype Field = BatteryVoltage | Altitude | Airspeed | Rssi

  /** The fixed position of a field in the message. */
  function Rank(f: Field): nat {
    match f
    case BatteryVoltage => 0
    case Altitude => 1
    case Airspeed => 2
    case Rssi => 3
  }

  function Enabled(p: Prefs, f: Field): bool {
    match f
    case BatteryVoltage => p.batteryVoltage
    case Altitude => p.altitude
    case Airspeed => p.airspeed
    case Rssi => p.rssi
  }

  function Clause(t: Telemetry, f: Field): string {
    match f
    case BatteryVoltage => "battery " + t.voltage + " volts. "
    case Altitude => "altitude, " + t.altitude + " meters. "
    case Airspeed => "airspeed, " + t.airspeed + " meters per second. "
    case Rssi => "r s s i, " + t.rssi + " decibels"
  }

  /** The enabled fields, each once, in the fixed order. */
  function Selected(p: Prefs): (fs: seq<Field>)
    ensures forall f :: f in fs <==> Enabled(p, f)
    ensures forall i, j :: 0 <= i < j < |fs| ==> Rank(fs[i]) < Rank(fs[j])
  {
    (if p.batteryVoltage then [BatteryVoltage] else [])
    + (if p.altitude then [Altitude] else [])
    + (if p.airspeed then [Airspeed] else [])
    + (if p.rssi then [Rssi] else [])
  }

  function Join(t: Telemetry, fs: seq<Field>): string
    decreases |fs|
  {
    if |fs| == 0 then "" else Clause(t, fs[0]) + Join(t, fs[1..])
  }

  /** The periodic status utterance: the clauses of the selected fields, in order. */
  function Message(p: Prefs, t: Telemetry): string {
    Join(t, Selected(p))
  }

  lemma {:induction false} JoinAppend(t: Telemetry, a: seq<Field>, b: seq<Field>)
    ensures Join(t, a + b) == Join(t, a) + Join(t, b)
    decreases |a|
  {
    if |a| == 0 {
      assert a + b == b;
    } else {
      assert (a + b)[1..] == a[1..] + b;
      JoinAppend(t, a[1..], b);
    }
  }

  /**
   * The message is what appending each enabled clause in turn to an empty
   * buffer produces.
   */
  lemma MessageAppendsEnabledClauses(p: Prefs, t: Telemetry)
    ensures Message(p, t) ==
      (if p.batteryVoltage then Clause(t, BatteryVoltage) else "")
      + (if p.altitude then Clause(t, Altitude) else "")
      + (if p.airspeed then Clause(t, Airspeed) else "")
      + (if p.rssi then Clause(t, Rssi) else "")
  {
    var b := if p.batteryVoltage then [BatteryVoltage] else [];
    var al := if p.altitude then [Altitude] else [];
    var s := if p.airspeed then [Airspeed] else [];
    var r := if p.rssi then [Rssi] else [];
    assert Selected(p) == b + al + s + r;
    JoinAppend(t, b + al + s, r);
    JoinAppend(t, b + al, s);
    JoinAppend(t, b, al);
    assert Join(t, b) == (if p.batteryVoltage then Clause(t, BatteryVoltage) else "");
    assert Join(t, al) == (if p.altitude then Clause(t, Altitude) else "");
    assert Join(t, s) == (if p.airspeed then Clause(t, Airspeed) else "");
    assert Join(t, r) == (if p.rssi then Clause(t, Rssi) else "");
  }

  /** With only altitude and signal strength enabled, exactly those two clauses are spoken, altitude first. */
  lemma AltitudeAndRssiOnly(t: Telemetry)
    ensures Message(Prefs(false, true, false, true), t) == Clause(t, Altitude) + Clause(t, Rssi)
  {
    MessageAppendsEnabledClauses(Prefs(false, true, false, true), t);
  }

}
