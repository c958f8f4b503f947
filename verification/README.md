# walkingkooka.convert — conversion dispatch, modelled in Dafny

This project models the conversion-dispatch core of `walkingkooka.convert`.
A converter answers two questions about a value and a requested class:
`canConvert` (does it accept the pair?) and `convert`. `convert` returns an
`Either`: Left holds the converted value and Right holds a failure message.
The model covers these converters:

- the **Number→Number** converter (`ConverterNumberNumber`);
- the **function-wrapped** converter (`FunctionConverter`);
- the **parser-backed** converter (`ParserConverter`);
- the **LocalDateTime→Number** day-serial converter (`ConverterTemporalLocalDateTimeNumber`);
- the **LocalDateTime→LocalTime** projection;
- the **converter chain** (`ConverterCollection`), where the first accepting member wins.

It also covers the default methods every converter inherits:
`convertOrFail` and the two `failConversion` overloads.

The model is made of immutable datatypes and pure functions:

- `Values.TypeTag` is a closed enum of the fifteen classes involved.
- `Values.Value` is a tagged runtime value. Floating-point and BigDecimal values are exact reals. Byte, short, int and long values are range-checked integers.
- `Converters.Converter` has one variant per converter kind. A chain holds a `seq` of converters.
- `Results.Either` is the two-armed result, and `Results.Outcome` is a call that either returns or throws.
- `Temporal` holds dates as epoch days and times as hour/minute/second. Its day serial is exact rational arithmetic.

Collaborators whose code is not part of this model appear as arbitrary
functions in `Collaborators.Externals`. A property holds whatever they do,
unless its own precondition says what it assumes of one of them. Five
members make such assumptions: `Scenarios.ChainLastMemberConverts`,
`Scenarios.ParserConverts` and `Scenarios.ParserFails` fix what the routine
or the parser returns for the one input under test, and
`ConverterProperties.ThrowingRoutineFailsWithCause` and
`ConverterProperties.AcceptedMayStillFail` fix whether the Byte routine exists
or throws. The collaborators are:

- `CharSequences.quoteIfChars`;
- the per-type routine of `ConverterNumberNumberNumberTypeVisitor`, which may throw;
- the temporal base class's `convertToNumber`, which receives the serial, the requested type, the conversion context and the date-time.

The conversion context and the parser context are opaque types. A text
parser is an arbitrary function from text and parser context to an optional
value.

Assumptions about classes this model does not contain:

- `Converter2` is not part of this model. Its `convert` is taken to be "if `canConvert` then `convert0` else `failConversion(value, type)`". This applies to every kind except the parser-backed one, which overrides `convert` itself.
- `ConverterCollection` is not part of this model. It is modelled from the behaviour its test asserts. Its `canConvert` holds when any member accepts, and its `convert0` converts with the first member that accepts. When no member accepts, it returns the standard failure.
- `ConverterTemporalLocalDateTime` is not part of this model. Its `canConvert` is taken to be "the value is a LocalDateTime and `isTargetType(type)`". Its day count is taken to be `epochDay + offset`. Its string form is taken to be `"LocalDateTime->" + targetType().getSimpleName()`, which is what the LocalTime test shows.

Facts of the code that the model keeps:

- The parser-backed converter's `convert` checks only that the value is a `String`; it never compares the requested type with its bound type (ParserConverter.java:69-76). So it parses a string even when another type was requested. `ParserConverter.RequestedTypeIgnored` and `ConverterProperties.RefusalIsStandardFailure` state this, with that exception.
- `parseString` checks only that the parser produced a token, with `isPresent()` (ParserConverter.java:83). Whether the whole text was consumed is not checked, and the model does not check it either.
- The chain test converts the string value "Cant convert to Void" to `Void` (ConverterCollectionTest.java:62). That string is the input value, not a failure message.

## Model

| member | source | states |
|---|---|---|
| Failures.FailConversion | src/main/java/walkingkooka/convert/Converter.java:58-64 | always a Right, never a Left; the message is "Failed to convert " + quoted value + " (" + value class name, followed by ") to " + target class name, and nothing else |
| Failures.FailConversionWithCause | src/main/java/walkingkooka/convert/Converter.java:66-74 | always a Right; the message is the standard message, then ", ", then the cause's message, or the cause's class name when that message is null or empty |
| Failures.CausedFailureIsStandard | src/main/java/walkingkooka/convert/Converter.java:69-74 | a failure carrying a cause still begins with the standard "Failed to convert " prefix |
| Converters.ConvertOrFail | src/main/java/walkingkooka/convert/Converter.java:44-56 | returns exactly the Left value when convert succeeds; throws a ConversionException carrying exactly the Right message when it fails |
| ConverterProperties.AcceptedMayStillFail | src/main/java/walkingkooka/convert/Converter.java:28-31 | accepting a pair does not promise success: Number->Number accepts an Integer for Byte and still fails when there is no routine for Byte |
| ConverterProperties.ThrowingRoutineFailsWithCause | src/main/java/walkingkooka/convert/ConverterNumberNumber.java:64-70 | Number->Number accepts 1000 for Byte; when the Byte routine throws, convert returns the failure carrying that exception, ending with its message when it has one |
| Failures.CausedFailureEndsWithMessage | src/main/java/walkingkooka/convert/Converter.java:66-74 | a failure whose cause has a non-empty message ends with ", " and that message |
| Converters.CanConvert | src/main/java/walkingkooka/convert/FunctionConverter.java:55-60 | a single converter accepts only instances of its source type; the function-wrapped, parser-backed and LocalTime converters accept exactly an instance of the source type requested as their target type; the two numeric converters accept exactly an instance of the source type with an accepted numeric target |
| Converters.Convert | src/main/java/walkingkooka/convert/Converter.java:36-42 | succeeds only on an accepted pair (or, for the parser-backed converter, on any string); refuses anything else with the standard failure; the function-wrapped converter succeeds exactly when it accepts, with the function's result; the LocalTime projection succeeds exactly when it accepts, with the time of day; LocalDateTime->Number hands on the serial of the date-time |
| ConverterProperties.RefusalIsStandardFailure | src/main/java/walkingkooka/convert/Converter.java:28-42 | whatever a converter does not accept ends in a standard failure, never a value, except a string given to the parser-backed converter |
| ConverterNumberNumber.IsTarget | src/main/java/walkingkooka/convert/ConverterNumberNumber.java:47-56 | a class is an accepted target exactly when it is Number or a concrete class whose values are numbers |
| ConverterNumberNumber.CanConvert | src/main/java/walkingkooka/convert/ConverterNumberNumber.java:42-57 | accepts exactly a value that is an instance of Number with an accepted target class; every instance of an accepted target is a number |
| ConverterNumberNumber.TargetsAreNumericClasses | src/main/java/walkingkooka/convert/ConverterNumberNumber.java:47-56 | the nine accepted target classes are exactly the classes that have instances and whose instances are all numbers |
| ConverterNumberNumber.Convert0 | src/main/java/walkingkooka/convert/ConverterNumberNumber.java:59-80 | Number target: the input itself; no routine for the target: the standard failure; a routine that returns: its value; a routine that throws: the failure carrying that exception; every failure has the standard prefix, so no fault escapes |
| ConverterNumberNumber.ConvertNonNumber | src/main/java/walkingkooka/convert/ConverterNumberNumber.java:64-80 | succeeds exactly when the visitor has a routine for the target and the routine returns, with the routine's value; a missing routine gives the standard failure; every failure has the standard prefix |
| ConverterNumberNumber.PassthroughIdempotent | src/main/java/walkingkooka/convert/ConverterNumberNumber.java:65-66 | the Number passthrough yields a value that is accepted again, and converting it again gives the same result |
| ConverterProperties.NumberTargetIsIdempotent | src/main/java/walkingkooka/convert/ConverterNumberNumber.java:64-72 | through the full convert, any number converted to Number is returned unchanged, and converting that result again changes nothing |
| Converters.FunctionWith | src/main/java/walkingkooka/convert/FunctionConverter.java:30-41 | a null source type or target type throws NullPointerException naming it; equal source and target types throw IllegalArgumentException with the message "Source and target types are the same" followed by the class name; otherwise a converter with exactly those types and that function |
| ConverterProperties.FunctionResultHasRequestedType | src/main/java/walkingkooka/convert/FunctionConverter.java:55-67 | a function converter whose function maps source instances to target instances only ever succeeds with an instance of the requested type |
| Converters.ToString | src/main/java/walkingkooka/convert/FunctionConverter.java:73-76 | every single converter's string form is "<source simple name>-><target simple name>", with the same shape for all five kinds |
| Converters.ParserWith | src/main/java/walkingkooka/convert/ParserConverter.java:39-47 | a null type, parser or context adapter throws NullPointerException naming it; otherwise a parser-backed converter with exactly those parts |
| ParserConverter.CanConvert | src/main/java/walkingkooka/convert/ParserConverter.java:60-65 | accepts exactly an instance of String requested as the bound type |
| ParserConverter.ParseString | src/main/java/walkingkooka/convert/ParserConverter.java:78-86 | succeeds exactly when the parser produces a token, with the token's value; otherwise the standard failure naming the original text |
| ParserConverter.Convert | src/main/java/walkingkooka/convert/ParserConverter.java:69-86 | a non-string gives the standard failure; a string succeeds exactly when the parser produces a token, with the token's value; otherwise it gives the standard failure naming the original text |
| ParserConverter.RequestedTypeIgnored | src/main/java/walkingkooka/convert/ParserConverter.java:69-76 | for a string, success and the converted value are the same whichever type is requested |
| ConverterTemporalLocalDateTime.IsNumberTargetType | src/main/java/walkingkooka/convert/ConverterTemporalLocalDateTimeNumber.java:46-57 | LocalDateTime->Number accepts exactly the targets that Number->Number accepts |
| Temporal.TimeFraction | src/main/java/walkingkooka/convert/ConverterTemporalLocalDateTimeNumber.java:60-61 | the time of day as a fraction lies in [0, 1) and is exactly the second of the day over 86400 |
| Temporal.Serial | src/main/java/walkingkooka/convert/ConverterTemporalLocalDateTimeNumber.java:59-69 | the whole part of the serial is the day count from the converter's reference day, and its fractional part times 86400 is the second of the day |
| Temporal.SerialRoundTrip | src/main/java/walkingkooka/convert/ConverterTemporalLocalDateTimeNumber.java:65-68 | splitting the serial back into day and time gives the original date-time |
| Temporal.DateTimeOfSerial | src/main/java/walkingkooka/convert/ConverterTemporalLocalDateTimeNumber.java:60-68 | an inverse of the serial that exists only in this model: no code in the library rebuilds a date-time. It rounds down to the whole second, so the date-time recovered from any serial has a serial at most the given one and less than one second below it. It is defined so that the round trip of the serial can be stated |
| ConverterProperties.NumberSerialIsLossless | src/main/java/walkingkooka/convert/ConverterTemporalLocalDateTimeNumber.java:59-69 | the converter hands to convertToNumber a serial that recovers the original date-time |
| ConverterProperties.NumberConverterDeclaresNumber | src/main/java/walkingkooka/convert/ConverterTemporalLocalDateTimeNumber.java:71-74 | the declared target type is Number, and a date-time is accepted for it |
| ConverterProperties.ZeroOffsetCountsFromEpoch | src/main/java/walkingkooka/convert/ConverterTemporalLocalDateTimeNumber.java:31-37 | with offset zero the day count is the epoch day, so day 0 is 1970-01-01 |
| Scenarios.QuarterDaySerial | src/test/java/walkingkooka/convert/ConverterTemporalLocalDateTimeTestCase.java:27-30 | epoch day 123 at 06:00 with offset 0 is the serial 123.25, and 123.25 splits back into that date-time |
| Converters.Chain | src/test/java/walkingkooka/convert/ConverterCollectionTest.java:34-48 | a null list throws a NullPointerException; an empty list throws IllegalArgumentException; a one-element list returns that converter itself; a chain of valid members is valid |
| Converters.FirstAccepting | src/test/java/walkingkooka/convert/ConverterCollectionTest.java:50-63 | finds the position of an accepting member with no accepting member before it, or reports none exactly when no member accepts |
| Chains.AcceptsIffSomeMemberAccepts | src/test/java/walkingkooka/convert/ConverterCollectionTest.java:50-63 | a chain accepts a pair exactly when one of its members does |
| Chains.ChainOfSeveral | src/test/java/walkingkooka/convert/ConverterCollectionTest.java:34-48 | a list of two or more converters becomes a chain of exactly those converters, in order |
| Chains.FirstAcceptingMemberWins | src/test/java/walkingkooka/convert/ConverterCollectionTest.java:50-58 | the first accepting member's own result is the chain's result |
| Chains.NoAcceptingMemberFails | src/test/java/walkingkooka/convert/ConverterCollectionTest.java:60-63 | with no accepting member, a chain of two or more gives the standard failure |
| Chains.AppendingKeepsHandledConversions | src/test/java/walkingkooka/convert/ConverterCollectionTest.java:50-53 | appending members never changes a conversion that an earlier member already accepts |
| Chains.EarlierMemberHasPriority | src/test/java/walkingkooka/convert/ConverterCollectionTest.java:50-58 | when two members accept the same pair, [A, B] gives A's result and [B, A] gives B's |
| Chains.ToStringAppendsMember | src/test/java/walkingkooka/convert/ConverterCollectionTest.java:65-68 | appending a member to a chain appends " \| " and that member's string form, so members appear in order |
| Chains.ToStringOfPair | src/test/java/walkingkooka/convert/ConverterCollectionTest.java:65-68 | a two-member chain reads "<first> \| <second>" |
| Scenarios.ChainFirstMemberConverts | src/test/java/walkingkooka/convert/ConverterCollectionTest.java:50-53 | "true" to Boolean through [String->Boolean, Number->Number] gives true |
| Scenarios.ChainLastMemberConverts | src/test/java/walkingkooka/convert/ConverterCollectionTest.java:55-58 | 1.0 to Long falls through to Number->Number and gives 1L, given a Long routine that maps 1.0 to 1 |
| Scenarios.ChainUnhandledTargetFails | src/test/java/walkingkooka/convert/ConverterCollectionTest.java:60-63 | the string "Cant convert to Void" converted to Void gives a standard failure |
| Scenarios.ChainToString | src/test/java/walkingkooka/convert/ConverterCollectionTest.java:65-73 | the chain under test reads "String->Boolean \| Number->Number" |
| ConverterProperties.ProjectionIgnoresDate | src/test/java/walkingkooka/convert/ConverterTemporalLocalDateTimeLocalTimeTest.java:28-42 | projecting a date-time to LocalTime gives its time, seconds included, and two date-times with the same time project alike whatever their dates |
| Scenarios.TestDates | src/test/java/walkingkooka/convert/ConverterTemporalLocalDateTimeLocalTimeTest.java:40-42 | the test date 2000-01-31 is epoch day 10987, counting 1970-01-01 as day 0 |
| Scenarios.LocalTimeProjectionScenarios | src/test/java/walkingkooka/convert/ConverterTemporalLocalDateTimeLocalTimeTest.java:28-61 | 2000-01-31 at midnight and at 12:58:59 project to midnight and 12:58:59; the target type is LocalTime; the string form is "LocalDateTime->LocalTime" |
| Scenarios.ParserConstruction | src/test/java/walkingkooka/convert/ParserConverterTest.java:67-77 | the String->BigDecimal converter is built from its parts, and its string form is "String->BigDecimal" |
| Scenarios.ParserConverts | src/test/java/walkingkooka/convert/ParserConverterTest.java:52-55 | "1.23" converts to BigDecimal 1.23 when the parser reads it so |
| Scenarios.ParserNonStringFails | src/test/java/walkingkooka/convert/ParserConverterTest.java:57-60 | Integer.MAX_VALUE to BigDecimal gives the standard failure |
| Scenarios.ParserFails | src/test/java/walkingkooka/convert/ParserConverterTest.java:62-65 | "FAILS", which the parser rejects, gives the standard failure naming that text |

## Left out

- I/O-free collaborators whose code is not part of this model are arbitrary functions: `CharSequences.quoteIfChars`, the numeric type visitor's routines, the temporal `convertToNumber`, and the text parser with its `TextCursor`. Their own behaviour is therefore not stated. That includes numeric range checks, narrowing and overflow policy.
- `BasicConverterContext` and the context's date-time and decimal vocabulary: the core only passes the context through, so it is an opaque type.
- `DateTimeFormatterConverterLocalDateString`: its formatting is done by `java.time.format.DateTimeFormatter`, which is outside this model.
- `setToString` / `Converters.customToString`: the wrapper's implementation is not part of this model.
- Java float and double rounding, NaN and infinities, and BigDecimal scale: numbers are exact reals. `days + time` is therefore exact, not a double sum.
- Nanoseconds of LocalTime: times have whole-second precision. The 64-bit overflow of `epochDay + offset` is not modelled.
- The null checks of `ConverterNumberNumber.canConvert`: Dafny values cannot be null. The factories' null arguments are modelled as `Option`.
- `FunctionConverter.with` does not check the function for null. A null function, which would fail only when applied, is not modelled.
- Converters.Convert: the wrapped function of the function-wrapped converter is taken to be total and to return an instance of the target class. An exception the function throws, or the ClassCastException of `type.cast` at FunctionConverter.java:66, would propagate out of `convert`; the model does not represent it. `ConverterProperties.FunctionResultHasRequestedType` states the typed case under its `WellTyped` precondition.
- The casts `type.cast(...)` and `(Value) token`, which can throw ClassCastException: the numeric routine's outcome and the parser's optional value stand for what those casts yield.
- Converters.Chain: the messages of the NullPointerException for a null list and of the IllegalArgumentException for an empty list are not known, so only their classes are stated.
- Converters.Convert: for LocalDateTime->Number it states only that the serial is handed to `convertToNumber`, because that method is not part of this model.
