/**
 * What the converters consume but do not define: the conversion context,
 * the parser context, and library routines whose code is not part of this
 * model. Each is an opaque type or an arbitrary function: a property proved
 * here holds whatever they do unless its own precondition says what it
 * assumes of one of them.
 */
module Collaborators {
  import opened Results
  import opened Values

  /** ConverterContext: locale and date-time vocabulary, never inspected by the core. */
  type ConverterContext

  /** The context a text parser runs with. */
  type ParserContext

  /** A text parser, reduced to what the parser-backed converter reads: the value of the token, if one was produced. */
  type TextParser = (string, ParserContext) -> Option<Value>

  /** A per-target numeric routine of the numeric type visitor; it may throw a RuntimeException. */
  type NumberRoutine = Value -> Outcome<Value>

  datatype Externals = Externals(
    /** CharSequences.quoteIfChars: how a value is shown inside a failure message. */
    quoteIfChars: Value -> string,
    /** ConverterNumberNumberNumberTypeVisitor.visitor: the routine for a target type, or null. */
    numberVisitor: TypeTag -> Option<NumberRoutine>,
    /** The temporal converters' convertToNumber(serial, type, context, dateTime). */
    convertToNumber: (real, TypeTag, ConverterContext, Value) -> Either<Value, string>
  )
}
