/**
 * ParserConverter: accepts only strings, hands the text to a text parser and
 * unwraps the value of the token it produces.
 */
module ParserConverter {
  import opened Results
  import opened Values
  import opened Collaborators
  import opened Failures

  /** canConvert: a String value, and exactly the bound type requested. */
  function CanConvert(bound: TypeTag, v: Value, t: TypeTag): (b: bool)
    ensures b <==> InstanceOf(v, String) && t == bound
  {
    v.StringValue? && t == bound
  }

  /**
   * convert: a non-string is the standard failure; a string is parsed with
   * the parser context adapted from the conversion context. A produced token
   * is the result, no token is the standard failure naming the original
   * text. The requested type is not consulted, only whether a token exists.
   */
  function Convert(parser: TextParser, adapt: ConverterContext -> ParserContext, ext: Externals,
                   v: Value, t: TypeTag, ctx: ConverterContext): (r: Either<Value, string>)
    ensures !v.StringValue? ==> r == FailConversion(ext, v, t)
    ensures v.StringValue? ==> (r.Left? <==> parser(v.text, adapt(ctx)).Some?)
    ensures v.StringValue? && r.Left? ==> r.left == parser(v.text, adapt(ctx)).value
    ensures v.StringValue? && r.Right? ==> r == FailConversion(ext, StringValue(v.text), t)
  {
    if v.StringValue? then ParseString(parser, adapt, ext, v.text, t, ctx) else FailConversion(ext, v, t)
  }

  /** parseString: the token's value when the parser produces one, else the standard failure naming the text. */
  function ParseString(parser: TextParser, adapt: ConverterContext -> ParserContext, ext: Externals,
                       text: string, t: TypeTag, ctx: ConverterContext): (r: Either<Value, string>)
    ensures r.Left? <==> parser(text, adapt(ctx)).Some?
    ensures r.Left? ==> r.left == parser(text, adapt(ctx)).value
    ensures r.Right? ==> r == FailConversion(ext, StringValue(text), t) && IsStandardFailure(r)
  {
    match parser(text, adapt(ctx))
    case Some(token) => Left(token)
    case None =>
      PlainFailureIsStandard(ext, StringValue(text), t);
      FailConversion(ext, StringValue(text), t)
  }

  /** For a string, whether and to what the text converts does not depend on the requested type. */
  lemma RequestedTypeIgnored(parser: TextParser, adapt: ConverterContext -> ParserContext, ext: Externals,
                             text: string, t1: TypeTag, t2: TypeTag, ctx: ConverterContext)
    ensures Convert(parser, adapt, ext, StringValue(text), t1, ctx).Left?
        <==> Convert(parser, adapt, ext, StringValue(text), t2, ctx).Left?
    ensures Convert(parser, adapt, ext, StringValue(text), t1, ctx).Left? ==>
      Convert(parser, adapt, ext, StringValue(text), t1, ctx) == Convert(parser, adapt, ext, StringValue(text), t2, ctx)
  {
  }
}
