/**
 * The converters whose source is a LocalDateTime: to a Number through its
 * day serial, and to a LocalTime by projection.
 */
module ConverterTemporalLocalDateTime {
  import opened Values
  import ConverterNumberNumber

  /** isTargetType of the LocalDateTime->Number converter: the same targets as the Number->Number converter. */
  function IsNumberTargetType(t: TypeTag): (b: bool)
    ensures b <==> ConverterNumberNumber.IsTarget(t)
  {
    t == BigDecimal || t == BigInteger || t == Byte || t == Double || t == Float
    || t == Integer || t == Long || t == Number || t == Short
  }

  /** isTargetType of the LocalDateTime->LocalTime converter. */
  predicate IsLocalTimeTargetType(t: TypeTag) {
    t == LocalTime
  }

  /** targetType() of each converter. */
  const NUMBER_TARGET_TYPE: TypeTag := Number
  const LOCAL_TIME_TARGET_TYPE: TypeTag := LocalTime
}
