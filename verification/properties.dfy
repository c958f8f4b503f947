/**
 * Properties of single converters that relate several calls or several
 * definitions: refusal, typing of results, the date-time serial and the
 * time-of-day projection.
 */
module ConverterProperties {
  import opened Results
  import opened Values
  import opened Collaborators
  import opened Failures
  import opened Converters
  import Temporal
  import ConverterNumberNumber
  import ConverterTemporalLocalDateTime

  /**
   * Anything a converter does not accept is refused with a standard failure,
   * never a value, except that the parser-backed converter parses any string
   * whatever type is requested.
   */
  lemma RefusalIsStandardFailure(c: Converter, ext: Externals, v: Value, t: TypeTag, ctx: ConverterContext)
    requires !CanConvert(c, v, t, ctx)
    requires !(c.Parser? && v.StringValue?)
    ensures IsStandardFailure(Convert(c, ext, v, t, ctx))
  {
    PlainFailureIsStandard(ext, v, t);
  }

  /** Acceptance does not promise success: Number->Number accepts Byte but fails without a routine for it. */
  lemma AcceptedMayStillFail(ext: Externals, ctx: ConverterContext)
    requires ext.numberVisitor(Byte).None?
    ensures CanConvert(NumberNumber, IntegerValue(1), Byte, ctx)
    ensures Convert(NumberNumber, ext, IntegerValue(1), Byte, ctx).Right?
  {
  }

  /**
   * The usual way an accepted pair fails: the routine for Byte exists but
   * throws on an Integer out of its range, and convert reports a failure
   * carrying that exception's message instead of letting it escape.
   */
  lemma ThrowingRoutineFailsWithCause(ext: Externals, cause: Exception, ctx: ConverterContext)
    requires ext.numberVisitor(Byte).Some? && ext.numberVisitor(Byte).value(IntegerValue(1000)) == Threw(cause)
    ensures CanConvert(NumberNumber, IntegerValue(1000), Byte, ctx)
    ensures Convert(NumberNumber, ext, IntegerValue(1000), Byte, ctx)
         == FailConversionWithCause(ext, IntegerValue(1000), Byte, cause)
    ensures !IsNullOrEmpty(cause.message) ==>
      EndsWith(Convert(NumberNumber, ext, IntegerValue(1000), Byte, ctx).right, ", " + cause.message.value)
  {
    if !IsNullOrEmpty(cause.message) {
      CausedFailureEndsWithMessage(ext, IntegerValue(1000), Byte, cause);
    }
  }

  /** The wrapped function maps instances of the source type to instances of the target type. */
  ghost predicate WellTyped(c: Converter) {
    c.Function? ==> forall v :: InstanceOf(v, c.source) ==> InstanceOf(c.f(v), c.target)
  }

  /** A well-typed function-wrapped converter only ever succeeds with a value of the requested type. */
  lemma FunctionResultHasRequestedType(c: Converter, ext: Externals, v: Value, t: TypeTag, ctx: ConverterContext)
    requires c.Function? && WellTyped(c)
    ensures Convert(c, ext, v, t, ctx).Left? ==> InstanceOf(Convert(c, ext, v, t, ctx).left, t)
  {
  }

  /**
   * The LocalDateTime->Number converter hands on a serial from which the
   * original date-time is recovered exactly.
   */
  lemma NumberSerialIsLossless(offset: Int64, ext: Externals, dateTime: Temporal.LocalDateTime, t: TypeTag, ctx: ConverterContext)
    requires ConverterTemporalLocalDateTime.IsNumberTargetType(t)
    ensures exists serial: real ::
      Temporal.DateTimeOfSerial(offset, serial) == dateTime
      && Convert(LocalDateTimeNumber(offset), ext, LocalDateTimeValue(dateTime), t, ctx)
         == ext.convertToNumber(serial, t, ctx, LocalDateTimeValue(dateTime))
  {
    Temporal.SerialRoundTrip(offset, dateTime);
    var serial := Temporal.Serial(offset, dateTime);
    assert Temporal.DateTimeOfSerial(offset, serial) == dateTime;
  }

  /** The LocalDateTime->Number converter declares Number as its target type, and accepts a date-time for it. */
  lemma NumberConverterDeclaresNumber(offset: Int64, dateTime: Temporal.LocalDateTime, ctx: ConverterContext)
    ensures TargetType(LocalDateTimeNumber(offset)) == Number
    ensures CanConvert(LocalDateTimeNumber(offset), LocalDateTimeValue(dateTime), TargetType(LocalDateTimeNumber(offset)), ctx)
  {
  }

  /** With offset zero the whole-day part of the serial is the epoch day: day 0 is 1970-01-01. */
  lemma ZeroOffsetCountsFromEpoch(dateTime: Temporal.LocalDateTime)
    ensures Temporal.Serial(0, dateTime).Floor == dateTime.date.epochDay
  {
  }

  /** Projecting to LocalTime keeps the time, seconds included, and discards the date. */
  lemma ProjectionIgnoresDate(ext: Externals, d1: Temporal.LocalDate, d2: Temporal.LocalDate,
                              time: Temporal.LocalTime, ctx: ConverterContext)
    ensures Convert(LocalDateTimeLocalTime, ext, LocalDateTimeValue(Temporal.LocalDateTime(d1, time)), LocalTime, ctx)
         == Left(LocalTimeValue(time))
    ensures Convert(LocalDateTimeLocalTime, ext, LocalDateTimeValue(Temporal.LocalDateTime(d1, time)), LocalTime, ctx)
         == Convert(LocalDateTimeLocalTime, ext, LocalDateTimeValue(Temporal.LocalDateTime(d2, time)), LocalTime, ctx)
  {
  }

  /** Number->Number's Number target returns its input unchanged and converting that result again changes nothing. */
  lemma NumberTargetIsIdempotent(ext: Externals, v: Value, ctx: ConverterContext)
    requires IsNumber(v)
    ensures Convert(NumberNumber, ext, v, Number, ctx) == Left(v)
    ensures Convert(NumberNumber, ext, Convert(NumberNumber, ext, v, Number, ctx).left, Number, ctx)
         == Convert(NumberNumber, ext, v, Number, ctx)
  {
    ConverterNumberNumber.PassthroughIdempotent(ext, v);
  }
}
