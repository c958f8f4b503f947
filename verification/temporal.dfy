/**
 * java.time values as the converters see them, and the day-serial arithmetic
 * of the temporal converters: a date is a whole day count from an epoch, a
 * time of day is a fraction of a day in [0, 1).
 */
module Temporal {

  const SECONDS_PER_DAY: int := 86400

  type Hour = h: int | 0 <= h < 24
  type Minute = m: int | 0 <= m < 60
  type Second = s: int | 0 <= s < 60
  type SecondOfDay = s: int | 0 <= s < 86400

  /** A LocalDate, held as its epoch day (day 0 is 1970-01-01). */
  datatype LocalDate = LocalDate(epochDay: int)

  /** A LocalTime to whole-second precision. */
  datatype LocalTime = LocalTime(hour: Hour, minute: Minute, second: Second)

  datatype LocalDateTime = LocalDateTime(date: LocalDate, time: LocalTime)

  const MIDNIGHT: LocalTime := LocalTime(0, 0, 0)

  /** LocalTime.toSecondOfDay */
  function ToSecondOfDay(t: LocalTime): (s: SecondOfDay)
    ensures OfSecondOfDay(s) == t
  {
    t.hour * 3600 + t.minute * 60 + t.second
  }

  /** LocalTime.ofSecondOfDay */
  function OfSecondOfDay(s: SecondOfDay): (t: LocalTime)
    ensures t.hour * 3600 + t.minute * 60 + t.second == s
  {
    LocalTime(s / 3600, s % 3600 / 60, s % 60)
  }

  /** The time of day as a fraction of a whole day. */
  function TimeFraction(t: LocalTime): (f: real)
    ensures 0.0 <= f < 1.0
    ensures f * 86400.0 == ToSecondOfDay(t) as real
  {
    ToSecondOfDay(t) as real / 86400.0
  }

  /** The whole-day count of a date relative to a converter whose day 0 is `offset` days before 1970-01-01. */
  function DayCount(offset: int, date: LocalDate): int {
    date.epochDay + offset
  }

  lemma FloorOfDayPlusFraction(days: int, f: real)
    requires 0.0 <= f < 1.0
    ensures (days as real + f).Floor == days
  {
  }

  /**
   * The numeric serial of a date-time: whole days since the converter's
   * reference day, plus the fraction of the day elapsed.
   */
  function Serial(offset: int, dateTime: LocalDateTime): (serial: real)
    ensures serial.Floor == DayCount(offset, dateTime.date)
    ensures (serial - serial.Floor as real) * 86400.0 == ToSecondOfDay(dateTime.time) as real
  {
    FloorOfDayPlusFraction(DayCount(offset, dateTime.date), TimeFraction(dateTime.time));
    DayCount(offset, dateTime.date) as real + TimeFraction(dateTime.time)
  }

  /**
   * Recomposes a date-time from a serial: the whole part is the day, the
   * fraction is the time of day, truncated to whole seconds.
   */
  function DateTimeOfSerial(offset: int, serial: real): (dateTime: LocalDateTime)
    ensures Serial(offset, dateTime) <= serial < Serial(offset, dateTime) + 1.0 / 86400.0
  {
    var days := serial.Floor;
    var fraction := serial - days as real;
    var seconds := (fraction * 86400.0).Floor;
    LocalDateTime(LocalDate(days - offset), OfSecondOfDay(seconds))
  }

  /** Splitting a serial recovers the date-time it was built from, to the second. */
  lemma SerialRoundTrip(offset: int, dateTime: LocalDateTime)
    ensures DateTimeOfSerial(offset, Serial(offset, dateTime)) == dateTime
  {
    var serial := Serial(offset, dateTime);
    var seconds := ToSecondOfDay(dateTime.time);
    assert ((serial - serial.Floor as real) * 86400.0).Floor == seconds;
  }

  /**
   * The epoch day of a proleptic Gregorian calendar date (the civil-to-days
   * count java.time uses), for writing dates as year, month and day.
   */
  function EpochDayOf(year: int, month: int, day: int): int
    requires 1 <= month <= 12 && 1 <= day <= 31
  {
    var y := if month <= 2 then year - 1 else year;
    var era := y / 400;
    var yearOfEra := y - era * 400;
    var shiftedMonth := (month + 9) % 12;
    var dayOfYear := (153 * shiftedMonth + 2) / 5 + day - 1;
    var dayOfEra := yearOfEra * 365 + yearOfEra / 4 - yearOfEra / 100 + dayOfYear;
    era * 146097 + dayOfEra - 719468
  }
}
