/**
 * The concrete conversions the repository's tests assert, stated over the
 * model. Collaborators the tests rely on (the numeric routine for Long, the
 * BigDecimal parser) appear as requirements on what they return.
 */
module Scenarios {
  import opened Results
  import opened Values
  import opened Collaborators
  import opened Failures
  import opened Converters
  import Temporal
  import Chains

  function LowerAscii(ch: char): char {
    if 'A' <= ch <= 'Z' then (ch as int - 'A' as int + 'a' as int) as char else ch
  }

  /** Boolean.valueOf(String): true exactly for "true" in any letter case. */
  function BooleanValueOf(v: Value): (r: Value)
    ensures r.BooleanValue?
    ensures v == StringValue("true") ==> r == BooleanValue(true)
  {
    BooleanValue(v.StringValue? && |v.text| == 4 && seq(4, i requires 0 <= i < 4 => LowerAscii(v.text[i])) == "true")
  }

  /** The chain under test: String->Boolean via Boolean.valueOf, then Number->Number. */
  const STRING_BOOLEAN: Converter := Function(String, Boolean, BooleanValueOf)
  const MEMBERS: seq<Converter> := [STRING_BOOLEAN, NumberNumber]

  lemma ChainFirstMemberConverts(ext: Externals, ctx: ConverterContext)
    ensures Chain(Some(MEMBERS)).Returned?
    ensures Convert(Chain(Some(MEMBERS)).value, ext, StringValue("true"), Boolean, ctx) == Left(BooleanValue(true))
  {
    assert CanConvert(STRING_BOOLEAN, StringValue("true"), Boolean, ctx);
    Chains.FirstAcceptingMemberWins(MEMBERS, 0, ext, StringValue("true"), Boolean, ctx);
  }

  lemma ChainLastMemberConverts(ext: Externals, ctx: ConverterContext)
    requires ext.numberVisitor(Long).Some?
    requires ext.numberVisitor(Long).value(DoubleValue(1.0)) == Returned(LongValue(1))
    ensures Chain(Some(MEMBERS)).Returned?
    ensures Convert(Chain(Some(MEMBERS)).value, ext, DoubleValue(1.0), Long, ctx) == Left(LongValue(1))
  {
    assert !CanConvert(STRING_BOOLEAN, DoubleValue(1.0), Long, ctx);
    assert CanConvert(NumberNumber, DoubleValue(1.0), Long, ctx);
    Chains.FirstAcceptingMemberWins(MEMBERS, 1, ext, DoubleValue(1.0), Long, ctx);
  }

  lemma ChainUnhandledTargetFails(ext: Externals, ctx: ConverterContext)
    ensures Chain(Some(MEMBERS)).Returned?
    ensures IsStandardFailure(Convert(Chain(Some(MEMBERS)).value, ext, StringValue("Cant convert to Void"), Void, ctx))
  {
    var v := StringValue("Cant convert to Void");
    assert !CanConvert(MEMBERS[0], v, Void, ctx) && !CanConvert(MEMBERS[1], v, Void, ctx);
    Chains.NoAcceptingMemberFails(MEMBERS, ext, v, Void, ctx);
    PlainFailureIsStandard(ext, v, Void);
  }

  lemma ChainToString()
    ensures Chain(Some(MEMBERS)).Returned?
    ensures ToString(Chain(Some(MEMBERS)).value) == "String->Boolean | Number->Number"
  {
    Chains.ToStringOfPair(STRING_BOOLEAN, NumberNumber);
    assert ToString(STRING_BOOLEAN) == "String->Boolean";
    assert ToString(NumberNumber) == "Number->Number";
  }

  /** The String->BigDecimal parser-backed converter is built from a present type, parser and adapter. */
  lemma ParserConstruction(parser: TextParser, adapt: ConverterContext -> ParserContext)
    ensures ParserWith(Some(BigDecimal), Some(parser), Some(adapt)) == Returned(Parser(BigDecimal, parser, adapt))
    ensures ToString(Parser(BigDecimal, parser, adapt)) == "String->BigDecimal"
  {
  }

  /** "1.23" converts through a parser that reads it as 1.23. */
  lemma ParserConverts(parser: TextParser, adapt: ConverterContext -> ParserContext, ext: Externals, ctx: ConverterContext)
    requires parser("1.23", adapt(ctx)) == Some(BigDecimalValue(1.23))
    ensures Convert(Parser(BigDecimal, parser, adapt), ext, StringValue("1.23"), BigDecimal, ctx) == Left(BigDecimalValue(1.23))
  {
  }

  /** Integer.MAX_VALUE is not a string, so it is refused with the standard failure. */
  lemma ParserNonStringFails(parser: TextParser, adapt: ConverterContext -> ParserContext, ext: Externals, ctx: ConverterContext)
    ensures Convert(Parser(BigDecimal, parser, adapt), ext, IntegerValue(2147483647), BigDecimal, ctx)
         == FailConversion(ext, IntegerValue(2147483647), BigDecimal)
  {
  }

  /** "FAILS", which the parser rejects, is the standard failure naming that text. */
  lemma ParserFails(parser: TextParser, adapt: ConverterContext -> ParserContext, ext: Externals, ctx: ConverterContext)
    requires parser("FAILS", adapt(ctx)).None?
    ensures Convert(Parser(BigDecimal, parser, adapt), ext, StringValue("FAILS"), BigDecimal, ctx)
         == FailConversion(ext, StringValue("FAILS"), BigDecimal)
  {
  }

  /** Epoch day 123 at 06:00 is the serial 123.25 with offset 0, and splits back into the same date-time. */
  lemma QuarterDaySerial()
    ensures Temporal.Serial(0, Temporal.LocalDateTime(Temporal.LocalDate(123), Temporal.LocalTime(6, 0, 0))) == 123.25
    ensures Temporal.DateTimeOfSerial(0, 123.25) == Temporal.LocalDateTime(Temporal.LocalDate(123), Temporal.LocalTime(6, 0, 0))
  {
    Temporal.SerialRoundTrip(0, Temporal.LocalDateTime(Temporal.LocalDate(123), Temporal.LocalTime(6, 0, 0)));
  }

  /** The epoch days of the calendar dates the tests use. */
  lemma TestDates()
    ensures Temporal.EpochDayOf(1970, 1, 1) == 0
    ensures Temporal.EpochDayOf(2000, 1, 31) == 10987
  {
  }

  /** 2000-01-31 (epoch day 10987) at midnight and at 12:58:59 project to their times; the converter reads "LocalDateTime->LocalTime". */
  lemma LocalTimeProjectionScenarios(ext: Externals, ctx: ConverterContext)
    ensures Convert(LocalDateTimeLocalTime, ext,
                    LocalDateTimeValue(Temporal.LocalDateTime(Temporal.LocalDate(10987), Temporal.MIDNIGHT)), LocalTime, ctx)
         == Left(LocalTimeValue(Temporal.MIDNIGHT))
    ensures Convert(LocalDateTimeLocalTime, ext,
                    LocalDateTimeValue(Temporal.LocalDateTime(Temporal.LocalDate(10987), Temporal.LocalTime(12, 58, 59))), LocalTime, ctx)
         == Left(LocalTimeValue(Temporal.LocalTime(12, 58, 59)))
    ensures TargetType(LocalDateTimeLocalTime) == LocalTime
    ensures ToString(LocalDateTimeLocalTime) == "LocalDateTime->LocalTime"
  {
  }
}
