/**
 * ConverterNumberNumber: converts any Number to one of the nine numeric
 * classes, passing the value through unchanged when the target is Number.
 */
module ConverterNumberNumber {
  import opened Results
  import opened Values
  import opened Collaborators
  import opened Failures

  /**
   * The nine target classes canConvert accepts: Number itself, and every
   * concrete class whose values are numbers.
   */
  function IsTarget(t: TypeTag): (b: bool)
    ensures b <==> t == Number || (t != Void && IsNumber(SampleOf(t)))
  {
    t == BigDecimal || t == BigInteger || t == Byte || t == Float || t == Double
    || t == Integer || t == Long || t == Number || t == Short
  }

  /** canConvert: a Number value, and a numeric target class. */
  function CanConvert(v: Value, t: TypeTag): (b: bool)
    ensures b <==> InstanceOf(v, Number) && IsTarget(t)
    ensures b ==> forall w :: InstanceOf(w, t) ==> IsNumber(w)
  {
    TargetsAreNumericClasses(t);
    IsNumber(v) && IsTarget(t)
  }

  /**
   * The accepted targets are exactly the classes that have instances and all
   * of whose instances are numbers.
   */
  lemma TargetsAreNumericClasses(t: TypeTag)
    ensures IsTarget(t) <==> (exists v :: InstanceOf(v, t)) && (forall v :: InstanceOf(v, t) ==> IsNumber(v))
  {
    if t == Number {
      assert InstanceOf(IntegerValue(0), t);
    } else if t == Void {
      assert forall v :: !InstanceOf(v, t);
    } else {
      var sample := SampleOf(t);
      assert InstanceOf(sample, t);
      assert forall v :: InstanceOf(v, t) ==> ClassOf(v) == t;
    }
  }

  /**
   * convert0: Number passes the value through; any other target goes to the
   * visitor's routine for that class. A missing routine is the standard
   * failure and an exception thrown by the routine is folded into a failure
   * carrying it, so nothing escapes.
   */
  function Convert0(ext: Externals, v: Value, t: TypeTag): (r: Either<Value, string>)
    ensures t == Number ==> r == Left(v)
    ensures t != Number && ext.numberVisitor(t).None? ==> r == FailConversion(ext, v, t)
    ensures t != Number && ext.numberVisitor(t).Some? ==>
      match ext.numberVisitor(t).value(v)
      case Returned(x) => r == Left(x)
      case Threw(cause) => r == FailConversionWithCause(ext, v, t, cause)
    ensures r.Right? ==> IsStandardFailure(r)
  {
    if t == Number then
      Left(v)
    else
      ConvertNonNumber(ext, v, t)
  }

  /**
   * The visitor's routine for a concrete target: it converts exactly when it
   * exists and returns, and every failure is a standard one.
   */
  function ConvertNonNumber(ext: Externals, v: Value, t: TypeTag): (r: Either<Value, string>)
    ensures r.Left? <==> ext.numberVisitor(t).Some? && ext.numberVisitor(t).value(v).Returned?
    ensures r.Left? ==> r.left == ext.numberVisitor(t).value(v).value
    ensures ext.numberVisitor(t).None? ==> r == FailConversion(ext, v, t)
    ensures r.Right? ==> IsStandardFailure(r)
  {
    match ext.numberVisitor(t)
    case None =>
      PlainFailureIsStandard(ext, v, t);
      FailConversion(ext, v, t)
    case Some(routine) =>
      match routine(v)
      case Returned(x) => Left(x)
      case Threw(cause) =>
        CausedFailureIsStandard(ext, v, t, cause);
        FailConversionWithCause(ext, v, t, cause)
  }

  /** Converting to Number twice gives what converting once gave. */
  lemma PassthroughIdempotent(ext: Externals, v: Value)
    requires CanConvert(v, Number)
    ensures Convert0(ext, Convert0(ext, v, Number).left, Number) == Convert0(ext, v, Number)
    ensures CanConvert(Convert0(ext, v, Number).left, Number)
  {
  }

  const TO_STRING := "Number->Number"
}
