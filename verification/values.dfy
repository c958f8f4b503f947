/**
 * The closed set of Java classes the converters dispatch on, and the runtime
 * values that inhabit them.
 */
module Values {
  import Temporal

  /** The `Class<?>` a conversion may be asked for. */
  datatype TypeTag =
    | BigDecimal | BigInteger | Byte | Short | Integer | Long | Float | Double | Number
    | String | Boolean | LocalDate | LocalTime | LocalDateTime | Void

  type Int8 = x: int | -0x80 <= x < 0x80
  type Int16 = x: int | -0x8000 <= x < 0x8000
  type Int32 = x: int | -0x8000_0000 <= x < 0x8000_0000
  type Int64 = x: int | -0x8000_0000_0000_0000 <= x < 0x8000_0000_0000_0000

  /**
   * A non-null runtime value. Floating point and BigDecimal values are held
   * exactly as reals. Number is abstract and Void has no instances, so
   * neither has a constructor here.
   */
  datatype Value =
    | BigDecimalValue(decimal: real)
    | BigIntegerValue(integer: int)
    | ByteValue(int8: Int8)
    | ShortValue(int16: Int16)
    | IntegerValue(int32: Int32)
    | LongValue(int64: Int64)
    | FloatValue(float32: real)
    | DoubleValue(float64: real)
    | StringValue(text: string)
    | BooleanValue(flag: bool)
    | LocalDateValue(date: Temporal.LocalDate)
    | LocalTimeValue(time: Temporal.LocalTime)
    | LocalDateTimeValue(dateTime: Temporal.LocalDateTime)

  /** value.getClass() */
  function ClassOf(v: Value): (t: TypeTag)
    ensures t != Number && t != Void
  {
    match v
    case BigDecimalValue(_) => BigDecimal
    case BigIntegerValue(_) => BigInteger
    case ByteValue(_) => Byte
    case ShortValue(_) => Short
    case IntegerValue(_) => Integer
    case LongValue(_) => Long
    case FloatValue(_) => Float
    case DoubleValue(_) => Double
    case StringValue(_) => String
    case BooleanValue(_) => Boolean
    case LocalDateValue(_) => LocalDate
    case LocalTimeValue(_) => LocalTime
    case LocalDateTimeValue(_) => LocalDateTime
  }

  /** `value instanceof Number` */
  predicate IsNumber(v: Value) {
    v.BigDecimalValue? || v.BigIntegerValue? || v.ByteValue? || v.ShortValue?
    || v.IntegerValue? || v.LongValue? || v.FloatValue? || v.DoubleValue?
  }

  /** Class.isInstance: the value's own class, or Number for any numeric value. */
  predicate InstanceOf(v: Value, t: TypeTag) {
    ClassOf(v) == t || (t == Number && IsNumber(v))
  }

  /** Class.getName */
  function Name(t: TypeTag): string {
    match t
    case BigDecimal => "java.math.BigDecimal"
    case BigInteger => "java.math.BigInteger"
    case Byte => "java.lang.Byte"
    case Short => "java.lang.Short"
    case Integer => "java.lang.Integer"
    case Long => "java.lang.Long"
    case Float => "java.lang.Float"
    case Double => "java.lang.Double"
    case Number => "java.lang.Number"
    case String => "java.lang.String"
    case Boolean => "java.lang.Boolean"
    case LocalDate => "java.time.LocalDate"
    case LocalTime => "java.time.LocalTime"
    case LocalDateTime => "java.time.LocalDateTime"
    case Void => "java.lang.Void"
  }

  /** Class.getSimpleName */
  function SimpleName(t: TypeTag): string {
    match t
    case BigDecimal => "BigDecimal"
    case BigInteger => "BigInteger"
    case Byte => "Byte"
    case Short => "Short"
    case Integer => "Integer"
    case Long => "Long"
    case Float => "Float"
    case Double => "Double"
    case Number => "Number"
    case String => "String"
    case Boolean => "Boolean"
    case LocalDate => "LocalDate"
    case LocalTime => "LocalTime"
    case LocalDateTime => "LocalDateTime"
    case Void => "Void"
  }

  /** A value whose class is exactly `t`, when `t` has instances of its own. */
  function SampleOf(t: TypeTag): (v: Value)
    requires t != Number && t != Void
    ensures ClassOf(v) == t
  {
    match t
    case BigDecimal => BigDecimalValue(0.0)
    case BigInteger => BigIntegerValue(0)
    case Byte => ByteValue(0)
    case Short => ShortValue(0)
    case Integer => IntegerValue(0)
    case Long => LongValue(0)
    case Float => FloatValue(0.0)
    case Double => DoubleValue(0.0)
    case String => StringValue("")
    case Boolean => BooleanValue(false)
    case LocalDate => LocalDateValue(Temporal.LocalDate(0))
    case LocalTime => LocalTimeValue(Temporal.MIDNIGHT)
    case LocalDateTime => LocalDateTimeValue(Temporal.LocalDateTime(Temporal.LocalDate(0), Temporal.MIDNIGHT))
  }
}
