/**
 * The Converter contract over a closed datatype of converter kinds: the
 * factories that guard construction, and canConvert, convert,
 * convertOrFail and toString for every kind, including the ordered chain in
 * which the first accepting member wins.
 */
module Converters {
  import opened Results
  import opened Values
  import opened Collaborators
  import opened Failures
  import Temporal
  import ConverterNumberNumber
  import ParserConverter
  import ConverterTemporalLocalDateTime

  datatype Converter =
    | NumberNumber
    | Function(source: TypeTag, target: TypeTag, f: Value -> Value)
    | Parser(bound: TypeTag, parser: TextParser, adapt: ConverterContext -> ParserContext)
    | LocalDateTimeNumber(offset: Int64)
    | LocalDateTimeLocalTime
    | Collection(members: seq<Converter>)

  /** The shapes the factories build: distinct function types, chains of two or more valid members. */
  ghost predicate Valid(c: Converter) {
    match c
    case Function(source, target, _) => source != target
    case Collection(ms) => |ms| >= 2 && forall i | 0 <= i < |ms| :: Valid(ms[i])
    case _ => true
  }

  /**
   * canConvert of each kind; a chain accepts when any member accepts. A
   * single converter accepts only instances of its source type, and either
   * exactly its target type or, for the numeric ones, any numeric target.
   */
  function CanConvert(c: Converter, v: Value, t: TypeTag, ctx: ConverterContext): (b: bool)
    ensures !c.Collection? && b ==> InstanceOf(v, SourceType(c))
    ensures c.Function? || c.Parser? || c.LocalDateTimeLocalTime? ==>
      (b <==> InstanceOf(v, SourceType(c)) && t == TargetType(c))
    ensures c.NumberNumber? || c.LocalDateTimeNumber? ==>
      (b <==> InstanceOf(v, SourceType(c)) && ConverterNumberNumber.IsTarget(t))
  {
    match c
    case NumberNumber => ConverterNumberNumber.CanConvert(v, t)
    case Function(source, target, _) => InstanceOf(v, source) && t == target
    case Parser(bound, _, _) => ParserConverter.CanConvert(bound, v, t)
    case LocalDateTimeNumber(_) => v.LocalDateTimeValue? && ConverterTemporalLocalDateTime.IsNumberTargetType(t)
    case LocalDateTimeLocalTime => v.LocalDateTimeValue? && ConverterTemporalLocalDateTime.IsLocalTimeTargetType(t)
    case Collection(ms) => exists i | 0 <= i < |ms| :: CanConvert(ms[i], v, t, ctx)
  }

  /** The position of the first member that accepts, if any does. */
  function FirstAccepting(ms: seq<Converter>, v: Value, t: TypeTag, ctx: ConverterContext): (r: Option<nat>)
    ensures r.Some? ==> r.value < |ms| && CanConvert(ms[r.value], v, t, ctx)
    ensures r.Some? ==> forall j | 0 <= j < r.value :: !CanConvert(ms[j], v, t, ctx)
    ensures r.None? <==> forall j | 0 <= j < |ms| :: !CanConvert(ms[j], v, t, ctx)
  {
    if |ms| == 0 then None
    else if CanConvert(ms[0], v, t, ctx) then Some(0)
    else match FirstAccepting(ms[1..], v, t, ctx)
      case None => None
      case Some(i) => Some(i + 1)
  }

  /**
   * convert. Every kind except the parser-backed one refuses what it does
   * not accept with the standard failure before converting; the
   * parser-backed converter checks only that the value is a string.
   */
  function Convert(c: Converter, ext: Externals, v: Value, t: TypeTag, ctx: ConverterContext): (r: Either<Value, string>)
    decreases c
    ensures r.Left? ==> CanConvert(c, v, t, ctx) || (c.Parser? && v.StringValue?)
    ensures !CanConvert(c, v, t, ctx) && !(c.Parser? && v.StringValue?) ==> r == FailConversion(ext, v, t)
    ensures c.NumberNumber? && CanConvert(c, v, t, ctx) ==> r == ConverterNumberNumber.Convert0(ext, v, t)
    ensures c.Function? ==> (r.Left? <==> CanConvert(c, v, t, ctx)) && (r.Left? ==> r.left == c.f(v))
    ensures c.Parser? ==> r == ParserConverter.Convert(c.parser, c.adapt, ext, v, t, ctx)
    ensures c.LocalDateTimeNumber? && CanConvert(c, v, t, ctx) ==>
      r == ext.convertToNumber(Temporal.Serial(c.offset, v.dateTime), t, ctx, v)
    ensures c.LocalDateTimeLocalTime? ==>
      (r.Left? <==> CanConvert(c, v, t, ctx)) && (r.Left? ==> r.left == LocalTimeValue(v.dateTime.time))
  {
    if c.Parser? then
      ParserConverter.Convert(c.parser, c.adapt, ext, v, t, ctx)
    else if !CanConvert(c, v, t, ctx) then
      FailConversion(ext, v, t)
    else
      match c
      case NumberNumber => ConverterNumberNumber.Convert0(ext, v, t)
      case Function(_, _, f) => Left(f(v))
      case LocalDateTimeNumber(offset) => ext.convertToNumber(Temporal.Serial(offset, v.dateTime), t, ctx, v)
      case LocalDateTimeLocalTime => Left(LocalTimeValue(v.dateTime.time))
      case Collection(ms) =>
        match FirstAccepting(ms, v, t, ctx)
        case Some(i) => Convert(ms[i], ext, v, t, ctx)
        case None => FailConversion(ext, v, t)
  }

  /** convertOrFail: the converted value, or a ConversionException carrying the failure message. */
  function ConvertOrFail(c: Converter, ext: Externals, v: Value, t: TypeTag, ctx: ConverterContext): (r: Outcome<Value>)
    ensures Convert(c, ext, v, t, ctx).Left? ==> r == Returned(Convert(c, ext, v, t, ctx).left)
    ensures Convert(c, ext, v, t, ctx).Right? ==>
      r == Threw(Exception(CONVERSION_EXCEPTION, Some(Convert(c, ext, v, t, ctx).right)))
  {
    match Convert(c, ext, v, t, ctx)
    case Left(x) => Returned(x)
    case Right(message) => Threw(Exception(CONVERSION_EXCEPTION, Some(message)))
  }

  /** The class a single converter converts from. */
  function SourceType(c: Converter): TypeTag
    requires !c.Collection?
  {
    match c
    case NumberNumber => Number
    case Function(source, _, _) => source
    case Parser(_, _, _) => String
    case LocalDateTimeNumber(_) => LocalDateTime
    case LocalDateTimeLocalTime => LocalDateTime
  }

  /** The class a single converter converts to. */
  function TargetType(c: Converter): TypeTag
    requires !c.Collection?
  {
    match c
    case NumberNumber => Number
    case Function(_, target, _) => target
    case Parser(bound, _, _) => bound
    case LocalDateTimeNumber(_) => ConverterTemporalLocalDateTime.NUMBER_TARGET_TYPE
    case LocalDateTimeLocalTime => ConverterTemporalLocalDateTime.LOCAL_TIME_TARGET_TYPE
  }

  function Join(parts: seq<string>, separator: string): string {
    if |parts| == 0 then ""
    else if |parts| == 1 then parts[0]
    else parts[0] + separator + Join(parts[1..], separator)
  }

  const SEPARATOR := " | "

  /**
   * toString. Every single converter reads "<source>-><target>" in simple
   * class names; a chain joins its members' forms with " | ".
   */
  function ToString(c: Converter): (s: string)
    decreases c
    ensures !c.Collection? ==> s == SimpleName(SourceType(c)) + "->" + SimpleName(TargetType(c))
  {
    match c
    case NumberNumber => ConverterNumberNumber.TO_STRING
    case Function(source, target, _) => SimpleName(source) + "->" + SimpleName(target)
    case Parser(bound, _, _) => "String->" + SimpleName(bound)
    case LocalDateTimeNumber(_) => "LocalDateTime->" + SimpleName(ConverterTemporalLocalDateTime.NUMBER_TARGET_TYPE)
    case LocalDateTimeLocalTime => "LocalDateTime->" + SimpleName(ConverterTemporalLocalDateTime.LOCAL_TIME_TARGET_TYPE)
    case Collection(ms) => Join(seq(|ms|, i requires 0 <= i < |ms| => ToString(ms[i])), SEPARATOR)
  }

  // Factories ---------------------------------------------------------------

  /**
   * FunctionConverter.with: null types are refused, and so are equal source
   * and target types.
   */
  function FunctionWith(source: Option<TypeTag>, target: Option<TypeTag>, f: Value -> Value): (r: Outcome<Converter>)
    ensures r.Returned? <==> source.Some? && target.Some? && source.value != target.value
    ensures r.Returned? ==> r.value == Function(source.value, target.value, f) && Valid(r.value)
    ensures source.None? ==> r == Threw(NullPointer("sourceType"))
    ensures source.Some? && target.None? ==> r == Threw(NullPointer("targetType"))
    ensures source.Some? && target.Some? && source.value == target.value ==>
      r == Threw(Exception(ILLEGAL_ARGUMENT_EXCEPTION, Some("Source and target types are the same" + Name(source.value))))
  {
    if source.None? then Threw(NullPointer("sourceType"))
    else if target.None? then Threw(NullPointer("targetType"))
    else if source.value == target.value then
      Threw(Exception(ILLEGAL_ARGUMENT_EXCEPTION, Some("Source and target types are the same" + Name(source.value))))
    else Returned(Function(source.value, target.value, f))
  }

  /** ParserConverter.with: the type, the parser and the context adapter must each be present. */
  function ParserWith(bound: Option<TypeTag>, parser: Option<TextParser>,
                      adapt: Option<ConverterContext -> ParserContext>): (r: Outcome<Converter>)
    ensures r.Returned? <==> bound.Some? && parser.Some? && adapt.Some?
    ensures r.Returned? ==> r.value == Parser(bound.value, parser.value, adapt.value) && Valid(r.value)
    ensures bound.None? ==> r == Threw(NullPointer("type"))
    ensures bound.Some? && parser.None? ==> r == Threw(NullPointer("parser"))
    ensures bound.Some? && parser.Some? && adapt.None? ==> r == Threw(NullPointer("context"))
  {
    if bound.None? then Threw(NullPointer("type"))
    else if parser.None? then Threw(NullPointer("parser"))
    else if adapt.None? then Threw(NullPointer("context"))
    else Returned(Parser(bound.value, parser.value, adapt.value))
  }

  /**
   * ConverterCollection.with: a null list and an empty list are refused; a
   * single converter is returned itself, unwrapped; longer lists become a
   * chain in the given order.
   */
  function Chain(converters: Option<seq<Converter>>): (r: Outcome<Converter>)
    ensures r.Returned? <==> converters.Some? && |converters.value| >= 1
    ensures converters.None? ==> r.Threw? && r.exception.className == NULL_POINTER_EXCEPTION
    ensures converters == Some([]) ==> r.Threw? && r.exception.className == ILLEGAL_ARGUMENT_EXCEPTION
    ensures converters.Some? && |converters.value| == 1 ==> r == Returned(converters.value[0])
    ensures converters.Some? && (forall i | 0 <= i < |converters.value| :: Valid(converters.value[i])) && r.Returned? ==>
      Valid(r.value)
  {
    if converters.None? then Threw(NullPointer("converters"))
    else if |converters.value| == 0 then Threw(Exception(ILLEGAL_ARGUMENT_EXCEPTION, None))
    else if |converters.value| == 1 then Returned(converters.value[0])
    else Returned(Collection(converters.value))
  }
}
