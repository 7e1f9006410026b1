/**
 * `ArgumentBuilder` from Sources/MediaTools/ArgumentBuilder.swift: an
 * append-only accumulator of command-line tokens with the one rule every
 * renderer relies on, "an absent value omits both the flag and the value".
 *
 * The Swift `add(flag:value:)` renders the value with `description`; the
 * model receives the value already rendered (`Option<string>`), and each
 * caller renders with the function the source's test expects (a type's
 * `argument` where it has one, Swift's `description` for numbers).
 */
module Arguments {
  import opened Wrappers

  /** The tokens `add(flag:value:)` appends: `[flag, value]`, or nothing for an absent value. */
  function ValueTokens(flag: string, value: Option<string>): (r: seq<string>)
    ensures value.None? <==> r == []
    ensures value.Some? ==> |r| == 2 && r[0] == flag && r[1] == value.value
  {
    match value
    case None => []
    case Some(v) => [flag, v]
  }

  /** The tokens `add(flag:when:)` appends: the flag alone, exactly when enabled. */
  function FlagTokens(flag: string, enabled: bool): (r: seq<string>)
    ensures enabled <==> r == [flag]
    ensures !enabled <==> r == []
  {
    if enabled then [flag] else []
  }

  /** The concatenation of a list of token groups, in order. */
  function Flatten(groups: seq<seq<string>>): (r: seq<string>)
  {
    if |groups| == 0 then [] else groups[0] + Flatten(groups[1..])
  }

  lemma {:induction false} FlattenAppend(groups: seq<seq<string>>, last: seq<string>)
    ensures Flatten(groups + [last]) == Flatten(groups) + last
  {
    if |groups| > 0 {
      assert (groups + [last])[1..] == groups[1..] + [last];
      FlattenAppend(groups[1..], last);
    }
  }

  lemma {:induction false} FlattenLength(groups: seq<seq<string>>)
    ensures |Flatten(groups)| == SumLengths(groups)
  {
    if |groups| > 0 {
      FlattenLength(groups[1..]);
    }
  }

  function SumLengths(groups: seq<seq<string>>): nat
  {
    if |groups| == 0 then 0 else |groups[0]| + SumLengths(groups[1..])
  }

  /** Appending a group after a prefix extends the prefix by that group. */
  lemma AppendAssociates(a: seq<string>, b: seq<string>, c: seq<string>)
    ensures a + (b + c) == a + b + c
  {
  }

  lemma AppendAssociates4(a: seq<string>, b: seq<string>, c: seq<string>, d: seq<string>)
    ensures a + (b + c + d) == a + b + c + d
  {
    AppendAssociates(a, b + c, d);
    AppendAssociates(a, b, c);
  }

  lemma AppendAssociates5(a: seq<string>, b: seq<string>, c: seq<string>, d: seq<string>, e: seq<string>)
    ensures a + (b + c + d + e) == a + b + c + d + e
  {
    AppendAssociates(a, b + c + d, e);
    AppendAssociates4(a, b, c, d);
  }

  lemma AppendAssociates6(a: seq<string>, b: seq<string>, c: seq<string>, d: seq<string>, e: seq<string>, f: seq<string>)
    ensures a + (b + c + d + e + f) == a + b + c + d + e + f
  {
    AppendAssociates(a, b + c + d + e, f);
    AppendAssociates5(a, b, c, d, e);
  }

  class ArgumentBuilder {
    /** `private(set) var arguments`. */
    var arguments: seq<string>

    /** `init()`: an empty token list. */
    constructor ()
      ensures arguments == []
    {
      arguments := [];
    }

    /** `add(flag:value:)`: flag and value together, or nothing when the value is absent. */
    method AddValue(flag: string, value: Option<string>)
      modifies this
      ensures arguments == old(arguments) + ValueTokens(flag, value)
      ensures old(arguments) <= arguments && |arguments| - |old(arguments)| in {0, 2}
    {
      if value.Some? {
        arguments := arguments + [flag];
        arguments := arguments + [value.value];
      }
    }

    /** `add(flag:)`: exactly one token. */
    method Add(flag: string)
      modifies this
      ensures arguments == old(arguments) + [flag]
      ensures old(arguments) <= arguments && |arguments| == |old(arguments)| + 1
    {
      arguments := arguments + [flag];
    }

    /** `add(flag:when:)`: the flag exactly when enabled, otherwise no change. */
    method AddWhen(flag: string, enabled: bool)
      modifies this
      ensures arguments == old(arguments) + FlagTokens(flag, enabled)
      ensures !enabled ==> arguments == old(arguments)
      ensures old(arguments) <= arguments && |arguments| - |old(arguments)| in {0, 1}
    {
      if enabled {
        arguments := arguments + [flag];
      }
    }

    /**
     * `append(argumentsFrom:)` of the builder the renderers use (its
     * definition is not part of this model): appends a whole token list.
     */
    method AppendAll(tokens: seq<string>)
      modifies this
      ensures arguments == old(arguments) + tokens
      ensures old(arguments) <= arguments
    {
      arguments := arguments + tokens;
    }
  }
}
