/**
 * The battery discharge debouncer: one remembered band index, and an
 * announcement whenever a reading leaves the band just announced going down,
 * or jumps more than one band up.
 */
module BatteryDebouncer {
  import opened Options
  import opened JavaInt

  /** Percentage points per announcement band. */
  const BAND: int := 10

  /**
   * The band of a reading: `(percent - 1) / 10`, truncated toward zero as
   * Java's `(int)` cast does, so every reading from -8 to 10 lands in band 0.
   */
  function Decile(percent: int): (d: int)
    ensures percent >= 1 ==> BAND * d <= percent - 1 < BAND * d + BAND
    ensures percent < 1 ==> BAND * d - BAND < percent - 1 <= BAND * d
  {
    TruncDiv(percent - 1, BAND)
  }

  /** The spoken text: no space between "at" and the number. */
  function Phrase(percent: int): string {
    "Battery at" + IntToString(percent) + "%"
  }

  /** The debouncer's state after a reading, and what (if anything) it announced. */
  datatype Observation = Observation(last: int, announcement: Option<string>)

  /**
   * One reading. The debouncer stays silent exactly when the reading's band is
   * the remembered one or the one just above it.
   */
  function Observe(last: int, percent: int): (r: Observation)
    ensures r.announcement.Some? <==> Decile(percent) != last && Decile(percent) != last + 1
    ensures r.announcement.Some? ==> r.last == Decile(percent) && r.announcement.value == Phrase(percent)
    ensures r.announcement.None? ==> r.last == last
  {
    var d := Decile(percent);
    if last > d || last + 1 < d then Observation(d, Some(Phrase(percent)))
    else Observation(last, None)
  }

  /** Every reading from 0 to 10 falls in band 0, unlike a floored quotient. */
  lemma LowReadingsShareBandZero(percent: int)
    requires -8 <= percent <= 10
    ensures Decile(percent) == 0
  {
  }

  /** Right after an announcement, a reading in the same band is silent. */
  lemma NoRepeatWithinDecile(last: int, p: int, q: int)
    requires Observe(last, p).announcement.Some?
    requires Decile(q) == Decile(p)
    ensures Observe(Observe(last, p).last, q) == Observation(Decile(p), None)
  {
  }

  /** Dropping exactly one band always announces. */
  lemma DropOneDecileAnnounces(last: int, percent: int)
    requires Decile(percent) == last - 1
    ensures Observe(last, percent) == Observation(last - 1, Some(Phrase(percent)))
  {
  }

  /** Rising exactly one band never announces. */
  lemma RiseOneDecileSilent(last: int, percent: int)
    requires Decile(percent) == last + 1
    ensures Observe(last, percent) == Observation(last, None)
  {
  }

  /** The spoken text carries the reading, which reads back from it. */
  lemma PhraseReadsBack(percent: int)
    ensures var s := Phrase(percent);
      |s| >= 12 && s[..10] == "Battery at" && s[|s| - 1] == '%'
      && ParseInt(s[10..|s| - 1]) == Some(percent)
  {
    var s := Phrase(percent);
    assert s[10..|s| - 1] == IntToString(percent);
    ParseIntToString(percent);
  }

  /** The final band and the readings announced, in order, over a stream of readings. */
  datatype Run = Run(last: int, announced: seq<int>)

  function RunReadings(last: int, readings: seq<int>): (r: Run)
    ensures |r.announced| <= |readings|
    ensures forall k :: 0 <= k < |r.announced| ==> r.announced[k] in readings
    ensures r.announced == [] ==> r.last == last
    ensures r.announced != [] ==> r.last == Decile(r.announced[|r.announced| - 1])
    decreases |readings|
  {
    if |readings| == 0 then Run(last, [])
    else
      var o := Observe(last, readings[0]);
      var rest := RunReadings(o.last, readings[1..]);
      Run(rest.last, (if o.announcement.Some? then [readings[0]] else []) + rest.announced)
  }

  /**
   * Two announcements in a row are never for the same band, and the first
   * one leaves the band remembered at the start (and the band above it).
   */
  lemma {:induction false} ConsecutiveAnnouncementsDiffer(last: int, readings: seq<int>)
    ensures var a := RunReadings(last, readings).announced;
      (|a| > 0 ==> Decile(a[0]) != last && Decile(a[0]) != last + 1)
      && forall k :: 0 <= k < |a| - 1 ==> Decile(a[k]) != Decile(a[k + 1])
    decreases |readings|
  {
    if |readings| > 0 {
      var o := Observe(last, readings[0]);
      ConsecutiveAnnouncementsDiffer(o.last, readings[1..]);
    }
  }

  /** From the initial band 0, the readings 95, 94, 93, 85, 84 announce at 95 and 85 only. */
  lemma ExampleDischarge()
    ensures RunReadings(0, [95, 94, 93, 85, 84]) == Run(8, [95, 85])
  {
  }

}
