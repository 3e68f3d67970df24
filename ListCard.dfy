/**
 * The time label of a history card: `convertToDesiredFormat` turns a
 * "YYYY-MM-DD HH:MM:SS" timestamp into "HH:MM".
 */
module ListCard {
  import opened Strings

  /**
   * The time part is the second space-separated field; its first two
   * colon-separated fields are joined by ':'. A time part without ':'
   * leaves `minute` undefined, which the template literal prints as
   * "undefined". Without a space there is no time part and the call throws,
   * hence the precondition.
   */
  function ConvertToDesiredFormat(dateTime: string): (r: string)
    requires ' ' in dateTime
    ensures ':' in r
  {
    var time := Split(dateTime, ' ')[1];
    var parts := Split(time, ':');
    var hour := parts[0];
    var minute := if |parts| >= 2 then parts[1] else "undefined";
    hour + ":" + minute
  }

  /**
   * Whatever the date part, a time part "h:m" followed by nothing or by
   * ":seconds" formats as "h:m": the date is ignored and the seconds dropped.
   */
  lemma {:induction false} HourAndMinuteKept(date: string, hour: string, minute: string, tail: string)
    requires ' ' !in date && ' ' !in hour && ' ' !in minute && ' ' !in tail
    requires ':' !in hour && ':' !in minute
    requires tail == [] || tail[0] == ':'
    ensures ConvertToDesiredFormat(date + " " + hour + ":" + minute + tail) == hour + ":" + minute
  {
    var time := hour + [':'] + (minute + tail);
    var s := date + [' '] + time;
    assert date + " " + hour + ":" + minute + tail == s;
    TimeField(date, time);
    var parts := Split(time, ':');
    SplitAfterField(hour, ':', minute + tail);
    assert parts[0] == hour;
    FirstFieldBeforeColon(minute, tail);
    assert parts[1] == minute;
  }

  /** The second space-separated field of "date time" is the time part. */
  lemma TimeField(date: string, time: string)
    requires ' ' !in date && ' ' !in time
    ensures Split(date + [' '] + time, ' ')[1] == time
  {
    SplitAfterField(date, ' ', time);
  }

  /** "minute" followed by nothing or by ":..." has "minute" as its first colon field. */
  lemma FirstFieldBeforeColon(minute: string, tail: string)
    requires ':' !in minute
    requires tail == [] || tail[0] == ':'
    ensures Split(minute + tail, ':')[0] == minute
  {
    if tail == [] {
      assert minute + tail == minute;
    } else {
      assert minute + tail == minute + [':'] + tail[1..];
      SplitAfterField(minute, ':', tail[1..]);
    }
  }

  /** A timestamp shaped "YYYY-MM-DD HH:MM:SS" (digits where the letters are). */
  ghost predicate IsDateTime(s: string)
  {
    && |s| == 19
    && s[4] == '-' && s[7] == '-' && s[10] == ' ' && s[13] == ':' && s[16] == ':'
    && forall k :: 0 <= k < 19 && k !in {4, 7, 10, 13, 16} ==> '0' <= s[k] <= '9'
  }

  /** The documented case: the result is the 5-character "HH:MM" at offsets 11-15. */
  lemma {:induction false} TimestampFormatsAsHourMinute(s: string)
    requires IsDateTime(s)
    ensures ' ' in s
    ensures ConvertToDesiredFormat(s) == s[11..16]
    ensures |ConvertToDesiredFormat(s)| == 5
  {
    assert s[10] == ' ';
    var date, hour, minute, tail := s[..10], s[11..13], s[14..16], s[16..];
    assert s == date + " " + hour + ":" + minute + tail;
    assert ' ' !in date by {
      forall k | 0 <= k < 10 ensures date[k] != ' ' { assert date[k] == s[k]; }
    }
    assert ' ' !in tail && ':' !in hour && ':' !in minute && ' ' !in hour && ' ' !in minute by {
      forall k | 0 <= k < 3 ensures tail[k] != ' ' { assert tail[k] == s[16 + k]; }
      forall k | 0 <= k < 2 ensures hour[k] == s[11 + k] && minute[k] == s[14 + k] { }
    }
    HourAndMinuteKept(date, hour, minute, tail);
    assert hour + ":" + minute == s[11..16];
  }

  /** A time part with no ':' keeps the whole time part and prints "undefined" for the minute. */
  lemma {:induction false} MinuteUndefinedWithoutColon(date: string, time: string)
    requires ' ' !in date && ' ' !in time && ':' !in time
    ensures ConvertToDesiredFormat(date + " " + time) == time + ":undefined"
  {
    assert date + " " + time == date + [' '] + time;
    SplitAfterField(date, ' ', time);
  }
}
