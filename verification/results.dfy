/**
 * The outcomes a conversion can have: the two-armed `Either` the converters
 * return, Java's nullable references, and calls that may throw.
 */
module Results {

  /** walkingkooka.Either: Left carries the converted value, Right a failure message. */
  datatype Either<+L, +R> = Left(left: L) | Right(right: R)

  /** A reference that may be null, or a java.util.Optional. */
  datatype Option<+T> = None | Some(value: T)

  /** A thrown Java exception: its class name and its (possibly null) message. */
  datatype Exception = Exception(className: string, message: Option<string>)

  /** The outcome of a Java call that either returns normally or throws. */
  datatype Outcome<+T> = Returned(value: T) | Threw(exception: Exception)

  const NULL_POINTER_EXCEPTION := "java.lang.NullPointerException"
  const ILLEGAL_ARGUMENT_EXCEPTION := "java.lang.IllegalArgumentException"
  const CONVERSION_EXCEPTION := "walkingkooka.convert.ConversionException"

  /** walkingkooka.text.CharSequences.isNullOrEmpty */
  predicate IsNullOrEmpty(s: Option<string>) {
    s.None? || s.value == ""
  }

  /** What Objects.requireNonNull(null, name) throws. */
  function NullPointer(name: string): (e: Exception)
    ensures e.className == NULL_POINTER_EXCEPTION && e.message == Some(name)
  {
    Exception(NULL_POINTER_EXCEPTION, Some(name))
  }
}
