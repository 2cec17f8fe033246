/**
 * The chronological key of a reading (Fuel_Error_finder_OVD.py, lines 41-46).
 *
 * Parsing the Date_UTC text (day first) and the Time_UTC text (pattern hour:minute) is
 * done by pandas and is not modelled: each parse is an oracle whose result is an
 * Option, a day number or a minute of the day. A key is measured in seconds since
 * midnight of day 0, so that it compares directly with a bunker delivery timestamp,
 * which is parsed from one "date time" text and may carry seconds.
 */
module Timestamps {
  import opened Wrappers

  const SecondsPerMinute: int := 60
  const SecondsPerDay: int := 86400

  /** A time of day as parsed with the pattern hour:minute. */
  type MinuteOfDay = m: int | 0 <= m < 1440

  /** The calendar day of a key. */
  function DayOf(key: int): int
  {
    key / SecondsPerDay
  }

  /** The minute of the day of a key. */
  function MinuteOf(key: int): (m: MinuteOfDay)
  {
    (key % SecondsPerDay) / SecondsPerMinute
  }

  /**
   * datetime.combine(date, time) when both parses succeeded, and NaT (None) otherwise.
   * The key is that day at that time of day, on a whole minute.
   */
  function Combine(date: Option<int>, time: Option<MinuteOfDay>): (key: Option<int>)
    ensures key.Some? <==> date.Some? && time.Some?
    ensures key.Some? ==> DayOf(key.value) == date.value && MinuteOf(key.value) == time.value
    ensures key.Some? ==> key.value % SecondsPerMinute == 0
  {
    if date.Some? && time.Some? then Some(date.value * SecondsPerDay + time.value * SecondsPerMinute)
    else None
  }

  /** The time stamps of a whole table, row by row (the Timestamp column). */
  function Stamps(dates: seq<Option<int>>, times: seq<Option<MinuteOfDay>>): (keys: seq<Option<int>>)
    requires |dates| == |times|
    ensures |keys| == |dates|
    ensures forall i :: 0 <= i < |keys| ==> (keys[i].Some? <==> dates[i].Some? && times[i].Some?)
    ensures forall i :: 0 <= i < |keys| && keys[i].Some? ==>
      DayOf(keys[i].value) == dates[i].value && MinuteOf(keys[i].value) == times[i].value
  {
    seq(|dates|, i requires 0 <= i < |dates| => Combine(dates[i], times[i]))
  }

  /** Keys order readings chronologically: by day, then by time of day. */
  lemma CombineIsChronological(d1: int, m1: MinuteOfDay, d2: int, m2: MinuteOfDay)
    ensures Combine(Some(d1), Some(m1)).value < Combine(Some(d2), Some(m2)).value
        <==> d1 < d2 || (d1 == d2 && m1 < m2)
  {
    var k1 := Combine(Some(d1), Some(m1)).value;
    var k2 := Combine(Some(d2), Some(m2)).value;
    if d1 < d2 {
      assert k1 <= (d2 - 1) * SecondsPerDay + 1439 * SecondsPerMinute;
    } else if d2 < d1 {
      assert k2 <= (d1 - 1) * SecondsPerDay + 1439 * SecondsPerMinute;
    }
  }
}
