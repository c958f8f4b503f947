/**
 * Properties of the converter chain: what it accepts, which member decides
 * its result, and how its string form is built.
 */
module Chains {
  import opened Results
  import opened Values
  import opened Collaborators
  import opened Failures
  import opened Converters

  /** A chain built from a non-empty list accepts exactly what one of its members accepts. */
  lemma AcceptsIffSomeMemberAccepts(ms: seq<Converter>, v: Value, t: TypeTag, ctx: ConverterContext)
    requires |ms| >= 1
    ensures Chain(Some(ms)).Returned?
    ensures CanConvert(Chain(Some(ms)).value, v, t, ctx) <==> exists i | 0 <= i < |ms| :: CanConvert(ms[i], v, t, ctx)
  {
    if |ms| == 1 {
      SingletonAcceptsAsItsMember(ms, v, t, ctx);
    } else {
      ChainOfSeveral(ms);
      CollectionAcceptsAsSomeMember(ms, v, t, ctx);
    }
  }

  /** A list of one converter is that converter, so the chain accepts what it accepts. */
  lemma SingletonAcceptsAsItsMember(ms: seq<Converter>, v: Value, t: TypeTag, ctx: ConverterContext)
    requires |ms| == 1
    ensures Chain(Some(ms)) == Returned(ms[0])
    ensures CanConvert(ms[0], v, t, ctx) <==> exists i | 0 <= i < |ms| :: CanConvert(ms[i], v, t, ctx)
  {
    if CanConvert(ms[0], v, t, ctx) {
      assert exists i | 0 <= i < |ms| :: CanConvert(ms[i], v, t, ctx);
    }
  }

  /** A list of two or more converters becomes a chain of exactly those converters, in order. */
  lemma ChainOfSeveral(ms: seq<Converter>)
    requires |ms| >= 2
    ensures Chain(Some(ms)) == Returned(Collection(ms))
  {
  }

  /** A chain value accepts exactly when one of its members does; each direction is a lemma below. */
  lemma CollectionAcceptsAsSomeMember(ms: seq<Converter>, v: Value, t: TypeTag, ctx: ConverterContext)
    ensures CanConvert(Collection(ms), v, t, ctx) <==> exists i | 0 <= i < |ms| :: CanConvert(ms[i], v, t, ctx)
  {
    ChainAcceptanceNeedsMember(ms, v, t, ctx);
    MemberAcceptanceSuffices(ms, v, t, ctx);
  }

  /** A chain that accepts has a member that accepts. */
  lemma ChainAcceptanceNeedsMember(ms: seq<Converter>, v: Value, t: TypeTag, ctx: ConverterContext)
    ensures CanConvert(Collection(ms), v, t, ctx) ==> exists i | 0 <= i < |ms| :: CanConvert(ms[i], v, t, ctx)
  {
  }

  /** Any accepting member makes the chain accept. */
  lemma MemberAcceptanceSuffices(ms: seq<Converter>, v: Value, t: TypeTag, ctx: ConverterContext)
    ensures (exists i | 0 <= i < |ms| :: CanConvert(ms[i], v, t, ctx)) ==> CanConvert(Collection(ms), v, t, ctx)
  {
  }

  /**
   * The first member that accepts decides the result, whatever that member's
   * own convert returns; the members after it are never consulted.
   */
  lemma FirstAcceptingMemberWins(ms: seq<Converter>, i: nat, ext: Externals, v: Value, t: TypeTag, ctx: ConverterContext)
    requires i < |ms|
    requires CanConvert(ms[i], v, t, ctx)
    requires forall j | 0 <= j < i :: !CanConvert(ms[j], v, t, ctx)
    ensures Chain(Some(ms)).Returned?
    ensures Convert(Chain(Some(ms)).value, ext, v, t, ctx) == Convert(ms[i], ext, v, t, ctx)
  {
    if |ms| >= 2 {
      var c := Collection(ms);
      assert CanConvert(c, v, t, ctx);
      var k := FirstAccepting(ms, v, t, ctx);
      assert k.Some?;
      assert k.value == i;
    }
  }

  /** When no member accepts, a chain of two or more reports the standard failure. */
  lemma NoAcceptingMemberFails(ms: seq<Converter>, ext: Externals, v: Value, t: TypeTag, ctx: ConverterContext)
    requires |ms| >= 2
    requires forall i | 0 <= i < |ms| :: !CanConvert(ms[i], v, t, ctx)
    ensures Chain(Some(ms)).Returned?
    ensures Convert(Chain(Some(ms)).value, ext, v, t, ctx) == FailConversion(ext, v, t)
  {
    assert !CanConvert(Collection(ms), v, t, ctx);
  }

  /** Appending members to a chain never changes a conversion an earlier member already accepts. */
  lemma AppendingKeepsHandledConversions(ms: seq<Converter>, rest: seq<Converter>, i: nat, ext: Externals,
                                         v: Value, t: TypeTag, ctx: ConverterContext)
    requires i < |ms| && CanConvert(ms[i], v, t, ctx)
    ensures Chain(Some(ms)).Returned? && Chain(Some(ms + rest)).Returned?
    ensures Convert(Chain(Some(ms + rest)).value, ext, v, t, ctx) == Convert(Chain(Some(ms)).value, ext, v, t, ctx)
  {
    var k := FirstAccepting(ms, v, t, ctx).value;
    FirstAcceptingMemberWins(ms, k, ext, v, t, ctx);
    assert forall j | 0 <= j < |ms| :: (ms + rest)[j] == ms[j];
    FirstAcceptingMemberWins(ms + rest, k, ext, v, t, ctx);
  }

  /** Of two members that both accept, the one listed first wins, in either order. */
  lemma EarlierMemberHasPriority(a: Converter, b: Converter, ext: Externals, v: Value, t: TypeTag, ctx: ConverterContext)
    requires CanConvert(a, v, t, ctx) && CanConvert(b, v, t, ctx)
    ensures Chain(Some([a, b])).Returned? && Chain(Some([b, a])).Returned?
    ensures Convert(Chain(Some([a, b])).value, ext, v, t, ctx) == Convert(a, ext, v, t, ctx)
    ensures Convert(Chain(Some([b, a])).value, ext, v, t, ctx) == Convert(b, ext, v, t, ctx)
  {
    FirstAcceptingMemberWins([a, b], 0, ext, v, t, ctx);
    FirstAcceptingMemberWins([b, a], 0, ext, v, t, ctx);
  }

  lemma {:induction false} JoinAppend(parts: seq<string>, part: string, separator: string)
    requires |parts| >= 1
    ensures Join(parts + [part], separator) == Join(parts, separator) + separator + part
    decreases |parts|
  {
    if |parts| == 1 {
      assert (parts + [part])[1..] == [part];
    } else {
      assert (parts + [part])[1..] == parts[1..] + [part];
      JoinAppend(parts[1..], part, separator);
    }
  }

  /** The string form of a chain lists its members in order, separated by " | ". */
  lemma ToStringAppendsMember(ms: seq<Converter>, m: Converter)
    requires |ms| >= 1
    ensures ToString(Collection(ms + [m])) == ToString(Collection(ms)) + " | " + ToString(m)
  {
    var all := ms + [m];
    var forms := seq(|all|, i requires 0 <= i < |all| => ToString(all[i]));
    var prefix := seq(|ms|, i requires 0 <= i < |ms| => ToString(ms[i]));
    assert forms == prefix + [ToString(m)];
    JoinAppend(prefix, ToString(m), SEPARATOR);
  }

  /** A two-member chain reads "<first> | <second>". */
  lemma ToStringOfPair(a: Converter, b: Converter)
    ensures ToString(Chain(Some([a, b])).value) == ToString(a) + " | " + ToString(b)
  {
    assert [a, b] == [a] + [b];
    ToStringAppendsMember([a], b);
  }
}
