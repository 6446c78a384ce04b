/**
 * The fixed utterances of the event translator: the armed state, the flight
 * mode and the GPS fix quality.
 */
module Phrases {

  /**
   * A flight mode. The modes with a friendlier spoken name are listed; every
   * other constant of the mode enumeration is carried with its own declared
   * display name.
   */
  datatype ApmMode =
    | FixedWingFlyByWireA
    | FixedWingFlyByWireB
    | RotorAcro
    | RotorAltHold
    | RotorPosition
    | FixedWingRtl
    | RotorRtl
    | OtherMode(name: string)

  const MODE_PREFIX: string := "Mode "

  function FriendlyName(mode: ApmMode): string {
    match mode
    case FixedWingFlyByWireA => "Fly by wire A"
    case FixedWingFlyByWireB => "Fly by wire B"
    case RotorAcro => "Acrobatic"
    case RotorAltHold => "Altitude hold"
    case RotorPosition => "Position hold"
    case FixedWingRtl => "Return to home"
    case RotorRtl => "Return to home"
    case OtherMode(name) => name
  }

  /** The utterance for a mode change: always the prefix "Mode ", then the mode's spoken name. */
  function ModePhrase(mode: ApmMode): (s: string)
    ensures |s| >= |MODE_PREFIX| && s[..|MODE_PREFIX|] == MODE_PREFIX
    ensures mode.OtherMode? ==> s[|MODE_PREFIX|..] == mode.name
  {
    MODE_PREFIX + FriendlyName(mode)
  }

  /** Both return-to-launch modes, fixed wing and rotor, are announced alike. */
  lemma ReturnToHomeShared()
    ensures ModePhrase(FixedWingRtl) == ModePhrase(RotorRtl) == "Mode Return to home"
  {
  }

  /**
   * Among the listed modes the utterance identifies the mode, except that the
   * two return-to-launch modes share one.
   */
  lemma ListedModePhrasesDistinct(a: ApmMode, b: ApmMode)
    requires !a.OtherMode? && !b.OtherMode?
    requires ModePhrase(a) == ModePhrase(b)
    ensures a == b || ((a.FixedWingRtl? || a.RotorRtl?) && (b.FixedWingRtl? || b.RotorRtl?))
  {
  }

  /** The utterance for a fix quality: 2 and 3 are locks, every other value is a lost lock. */
  function GpsPhrase(fix: int): (s: string)
    ensures s == "GPS 2D Lock" <==> fix == 2
    ensures s == "GPS 3D Lock" <==> fix == 3
    ensures s == "Lost GPS Lock" <==> fix != 2 && fix != 3
  {
    if fix == 2 then "GPS 2D Lock"
    else if fix == 3 then "GPS 3D Lock"
    else "Lost GPS Lock"
  }

  function ArmedPhrase(armed: bool): (s: string)
    ensures s == "Armed" <==> armed
    ensures s == "Disarmed" <==> !armed
  {
    if armed then "Armed" else "Disarmed"
  }

}
