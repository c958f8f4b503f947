/**
 * The standard failure results every converter builds through the default
 * methods of the Converter interface.
 */
module Failures {
  import opened Results
  import opened Values
  import opened Collaborators

  const FAILED_TO_CONVERT := "Failed to convert "

  predicate StartsWith(s: string, prefix: string) {
    |prefix| <= |s| && s[..|prefix|] == prefix
  }

  predicate EndsWith(s: string, suffix: string) {
    |suffix| <= |s| && s[|s| - |suffix|..] == suffix
  }

  /**
   * failConversion(value, target): always a Right whose message names the
   * quoted value, the value's class and the target class, in that order.
   */
  function FailConversion(ext: Externals, v: Value, target: TypeTag): (r: Either<Value, string>)
    ensures r.Right?
    ensures StartsWith(r.right, FAILED_TO_CONVERT + ext.quoteIfChars(v) + " (" + Name(ClassOf(v)))
    ensures EndsWith(r.right, ") to " + Name(target))
    ensures |r.right| == |FAILED_TO_CONVERT + ext.quoteIfChars(v) + " (" + Name(ClassOf(v))| + |") to " + Name(target)|
  {
    var head := FAILED_TO_CONVERT + ext.quoteIfChars(v) + " (" + Name(ClassOf(v));
    var tail := ") to " + Name(target);
    assert (head + tail)[..|head|] == head;
    assert (head + tail)[|head + tail| - |tail|..] == tail;
    Right(head + tail)
  }

  /**
   * failConversion(value, target, cause): the standard message followed by
   * ", " and the cause's message, or the cause's class name when that
   * message is null or empty.
   */
  function FailConversionWithCause(ext: Externals, v: Value, target: TypeTag, cause: Exception): (r: Either<Value, string>)
    ensures r.Right?
    ensures !IsNullOrEmpty(cause.message) ==> r.right == FailConversion(ext, v, target).right + ", " + cause.message.value
    ensures IsNullOrEmpty(cause.message) ==> r.right == FailConversion(ext, v, target).right + ", " + cause.className
  {
    var detail := if IsNullOrEmpty(cause.message) then cause.className else cause.message.value;
    Right(FailConversion(ext, v, target).right + ", " + detail)
  }

  /** Every failure a converter reports, with or without a cause, starts with the standard prefix. */
  predicate IsStandardFailure(r: Either<Value, string>) {
    r.Right? && StartsWith(r.right, FAILED_TO_CONVERT)
  }

  lemma PlainFailureIsStandard(ext: Externals, v: Value, target: TypeTag)
    ensures IsStandardFailure(FailConversion(ext, v, target))
  {
    var plain := FailConversion(ext, v, target).right;
    var head := FAILED_TO_CONVERT + ext.quoteIfChars(v) + " (" + Name(ClassOf(v));
    assert plain[..|head|] == head;
    assert head[..|FAILED_TO_CONVERT|] == FAILED_TO_CONVERT;
  }

  lemma CausedFailureIsStandard(ext: Externals, v: Value, target: TypeTag, cause: Exception)
    ensures IsStandardFailure(FailConversionWithCause(ext, v, target, cause))
  {
    PlainFailureIsStandard(ext, v, target);
    var plain := FailConversion(ext, v, target).right;
    var withCause := FailConversionWithCause(ext, v, target, cause).right;
    assert withCause[..|plain|] == plain;
  }

  /** A failure with a cause that has a message ends with that message. */
  lemma CausedFailureEndsWithMessage(ext: Externals, v: Value, target: TypeTag, cause: Exception)
    requires !IsNullOrEmpty(cause.message)
    ensures EndsWith(FailConversionWithCause(ext, v, target, cause).right, ", " + cause.message.value)
  {
    var plain := FailConversion(ext, v, target).right;
    var detail := ", " + cause.message.value;
    var failure := FailConversionWithCause(ext, v, target, cause).right;
    assert failure == plain + detail;
    assert failure[|failure| - |detail|..] == detail;
  }
}
