/**
 * Decimal rendering and parsing of integers and the string splitting and
 * joining that every renderer shares.
 *
 * `IntToString` is Swift's `Int.description` (a leading `-` for negative
 * values), `ParseInt` is Swift's failable `Int(_: String)` on a 64-bit
 * platform, `ZeroPad` is the `%0<w>d` conversion of `String(format:)`,
 * `Split` is `split(separator:)` with its default of omitting empty pieces,
 * and `Join` is `joined(separator:)`.  Strings are modelled as ASCII.
 */
module Text {
  import opened Wrappers

  const INT64_MIN: int := -0x8000_0000_0000_0000
  const INT64_MAX: int := 0x7FFF_FFFF_FFFF_FFFF

  predicate IsDigit(c: char) { '0' <= c <= '9' }

  predicate AllDigits(s: string) { forall i :: 0 <= i < |s| ==> IsDigit(s[i]) }

  function DigitChar(d: nat): (c: char)
    requires d < 10
    ensures IsDigit(c)
  {
    ('0' as int + d) as char
  }

  function DigitValue(c: char): (d: nat)
    requires IsDigit(c)
    ensures d < 10 && DigitChar(d) == c
  {
    c as int - '0' as int
  }

  function Pow10(n: nat): (p: nat)
    ensures p >= 1
  {
    if n == 0 then 1 else 10 * Pow10(n - 1)
  }

  /** The decimal digits of `n`, most significant first, without leading zeros. */
  function NatToString(n: nat): (s: string)
    ensures |s| >= 1 && AllDigits(s)
    ensures |s| > 1 ==> s[0] != '0'
  {
    if n < 10 then [DigitChar(n)] else NatToString(n / 10) + [DigitChar(n % 10)]
  }

  /** Swift's `Int.description`: a minus sign for negative values, then the digits. */
  function IntToString(i: int): (s: string)
    ensures |s| >= 1
    ensures s[0] == '-' <==> i < 0
    ensures i >= 0 ==> s == NatToString(i)
  {
    if i < 0 then "-" + NatToString(-i) else NatToString(i)
  }

  /** An optional integer's rendering, absent exactly when the integer is. */
  function IntText(o: Option<int>): (r: Option<string>)
    ensures o.None? <==> r.None?
    ensures o.Some? ==> r.value == IntToString(o.value)
  {
    match o
    case Some(n) => Some(IntToString(n))
    case None => None
  }

  /** The value of a string of decimal digits (leading zeros allowed). */
  function DigitsValue(s: string): nat
    requires AllDigits(s)
  {
    if s == [] then 0 else 10 * DigitsValue(s[..|s| - 1]) + DigitValue(s[|s| - 1])
  }

  lemma {:induction false} DigitsValueOfNatToString(n: nat)
    ensures DigitsValue(NatToString(n)) == n
  {
    if n >= 10 {
      var s := NatToString(n);
      assert s[..|s| - 1] == NatToString(n / 10);
      DigitsValueOfNatToString(n / 10);
    }
  }

  lemma {:induction false} DigitsValueBound(s: string)
    requires AllDigits(s)
    ensures DigitsValue(s) < Pow10(|s|)
  {
    if s != [] {
      DigitsValueBound(s[..|s| - 1]);
    }
  }

  /** Digits of a string with no leading zero determine the string back. */
  lemma {:induction false} NatToStringOfDigitsValue(s: string)
    requires AllDigits(s) && |s| >= 1
    requires |s| > 1 ==> s[0] != '0'
    ensures NatToString(DigitsValue(s)) == s
  {
    if |s| == 1 {
    } else {
      var init := s[..|s| - 1];
      assert init[0] == s[0];
      NatToStringOfDigitsValue(init);
      LeadingDigitNonZero(init);
      assert DigitsValue(s) / 10 == DigitsValue(init);
      assert DigitsValue(s) % 10 == DigitValue(s[|s| - 1]);
    }
  }

  lemma {:induction false} LeadingDigitNonZero(s: string)
    requires AllDigits(s) && |s| >= 1 && s[0] != '0'
    ensures DigitsValue(s) >= Pow10(|s| - 1)
  {
    if |s| > 1 {
      var init := s[..|s| - 1];
      assert init[0] == s[0];
      LeadingDigitNonZero(init);
    }
  }

  /** `String(format: "%0<w>d", n)`: at least `w` digits, zero-filled on the left. */
  function ZeroPad(n: nat, w: nat): (s: string)
  {
    if n < Pow10(w) then FixedDigits(n, w) else NatToString(n)
  }

  /** Exactly `w` digits: the last `w` decimal digits of `n`. */
  function FixedDigits(n: nat, w: nat): (s: string)
    ensures |s| == w && AllDigits(s)
  {
    if w == 0 then [] else FixedDigits(n / 10, w - 1) + [DigitChar(n % 10)]
  }

  lemma {:induction false} FixedDigitsValue(n: nat, w: nat)
    ensures DigitsValue(FixedDigits(n, w)) == n % Pow10(w)
  {
    if w > 0 {
      var s := FixedDigits(n, w);
      assert s[..|s| - 1] == FixedDigits(n / 10, w - 1);
      FixedDigitsValue(n / 10, w - 1);
      ModPow10Step(n, w);
    }
  }

  lemma ModPow10Step(n: nat, w: nat)
    requires w > 0
    ensures n % Pow10(w) == 10 * ((n / 10) % Pow10(w - 1)) + n % 10
  {
    var p := Pow10(w - 1);
    var q := n / 10;
    assert n == 10 * q + n % 10;
    assert q == (q / p) * p + q % p;
    assert n == (q / p) * (10 * p) + (10 * (q % p) + n % 10);
    DivModUnique(n, 10 * p, q / p, 10 * (q % p) + n % 10);
  }

  lemma DivModUnique(a: int, b: int, q: int, r: int)
    requires b > 0 && 0 <= r < b && a == q * b + r
    ensures a / b == q && a % b == r
  {
    var d := a / b - q;
    assert d * b == r - a % b;
    MulSign(d, b);
  }

  lemma MulSign(d: int, b: int)
    requires b > 0
    ensures d >= 1 ==> d * b >= b
    ensures d <= -1 ==> d * b <= -b
  {
    if d >= 1 {
      assert d * b == b + (d - 1) * b;
    } else if d <= -1 {
      assert d * b == -b - (-d - 1) * b;
    }
  }

  lemma {:induction false} FixedDigitsOfValue(s: string)
    requires AllDigits(s)
    ensures FixedDigits(DigitsValue(s), |s|) == s
  {
    if s != [] {
      var init := s[..|s| - 1];
      var v := DigitsValue(s);
      var d := DigitValue(s[|s| - 1]);
      FixedDigitsOfValue(init);
      assert v == DigitsValue(init) * 10 + d;
      DivModUnique(v, 10, DigitsValue(init), d);
      assert FixedDigits(v, |s|) == FixedDigits(v / 10, |s| - 1) + [DigitChar(v % 10)];
      assert s == init + [s[|s| - 1]];
    }
  }

  /** For a value that fits in `w` digits, `%0<w>d` yields exactly `w` digits carrying that value. */
  lemma ZeroPadFits(n: nat, w: nat)
    requires n < Pow10(w)
    ensures ZeroPad(n, w) == FixedDigits(n, w)
    ensures |ZeroPad(n, w)| == w && AllDigits(ZeroPad(n, w))
    ensures DigitsValue(ZeroPad(n, w)) == n
  {
    FixedDigitsValue(n, w);
  }

  /** A `w`-digit string is reproduced by `%0<w>d` applied to its value. */
  lemma ZeroPadOfDigits(s: string)
    requires AllDigits(s)
    ensures ZeroPad(DigitsValue(s), |s|) == s
  {
    DigitsValueBound(s);
    FixedDigitsOfValue(s);
  }

  /** `%0<w>d` never loses digits: it is at least `w` long, all digits, and carries the value. */
  lemma ZeroPadValue(n: nat, w: nat)
    ensures |ZeroPad(n, w)| >= w && AllDigits(ZeroPad(n, w))
    ensures DigitsValue(ZeroPad(n, w)) == n
  {
    if n < Pow10(w) {
      ZeroPadFits(n, w);
    } else {
      DigitsValueOfNatToString(n);
      NatToStringLength(n, w);
    }
  }

  lemma {:induction false} NatToStringLength(n: nat, w: nat)
    requires n >= Pow10(w)
    ensures |NatToString(n)| > w
  {
    if w > 0 {
      NatToStringLength(n / 10, w - 1);
    }
  }

  /**
   * Swift's failable `Int(_: String)` with radix 10: an optional `+` or `-`,
   * then one or more ASCII digits, and a value inside the 64-bit range.
   */
  function ParseInt(s: string): (r: Option<int>)
    ensures r.Some? ==> INT64_MIN <= r.value <= INT64_MAX
  {
    if |s| == 0 then None
    else
      var body := if s[0] == '-' || s[0] == '+' then s[1..] else s;
      if |body| == 0 || !AllDigits(body) then None
      else
        var v: int := if s[0] == '-' then -(DigitsValue(body) as int) else DigitsValue(body);
        if INT64_MIN <= v <= INT64_MAX then Some(v) else None
  }

  /** Rendering and parsing agree on every 64-bit integer. */
  lemma ParseIntOfIntToString(i: int)
    requires INT64_MIN <= i <= INT64_MAX
    ensures ParseInt(IntToString(i)) == Some(i)
  {
    var s := IntToString(i);
    if i < 0 {
      assert s[1..] == NatToString(-i);
      DigitsValueOfNatToString(-i);
    } else {
      DigitsValueOfNatToString(i);
    }
  }

  /** Index of the first `c` in `s`, or `|s|` when there is none. */
  function IndexOf(s: string, c: char): (k: nat)
    ensures k <= |s|
    ensures k < |s| ==> s[k] == c
    ensures forall j :: 0 <= j < k ==> s[j] != c
  {
    if |s| == 0 then 0 else if s[0] == c then 0 else 1 + IndexOf(s[1..], c)
  }

  /** The first `c` in `a + b` is the first one in `b` when `a` holds none. */
  lemma {:induction false} IndexOfConcat(a: string, b: string, c: char)
    requires c !in a
    ensures IndexOf(a + b, c) == |a| + IndexOf(b, c)
  {
    if |a| > 0 {
      assert (a + b)[1..] == a[1..] + b;
      IndexOfConcat(a[1..], b, c);
    } else {
      assert a + b == b;
    }
  }

  /** `s.split(separator: sep)`: the maximal non-empty runs of characters other than `sep`. */
  function Split(s: string, sep: char): (parts: seq<string>)
    ensures forall i :: 0 <= i < |parts| ==> |parts[i]| > 0 && sep !in parts[i]
    decreases |s|
  {
    var k := IndexOf(s, sep);
    var rest := if k < |s| then Split(s[k + 1..], sep) else [];
    if k == 0 then rest else [s[..k]] + rest
  }

  /** `parts.joined(separator: sep)`. */
  function Join(parts: seq<string>, sep: string): (s: string)
  {
    if |parts| == 0 then "" else if |parts| == 1 then parts[0] else parts[0] + sep + Join(parts[1..], sep)
  }

  /** `parts.joined()`: concatenation without a separator. */
  function Concat(parts: seq<string>): (s: string)
    ensures |parts| == 0 ==> s == ""
  {
    if |parts| == 0 then "" else parts[0] + Concat(parts[1..])
  }

  lemma {:induction false} JoinEmptySeparator(parts: seq<string>)
    ensures Join(parts, "") == Concat(parts)
  {
    if |parts| > 1 {
      JoinEmptySeparator(parts[1..]);
    }
  }

  lemma {:induction false} ConcatAppend(parts: seq<string>, last: string)
    ensures Concat(parts + [last]) == Concat(parts) + last
  {
    if |parts| > 0 {
      assert (parts + [last])[1..] == parts[1..] + [last];
      ConcatAppend(parts[1..], last);
    }
  }

  lemma {:induction false} JoinAppend(parts: seq<string>, last: string, sep: string)
    requires |parts| > 0
    ensures Join(parts + [last], sep) == Join(parts, sep) + sep + last
  {
    if |parts| > 1 {
      assert (parts + [last])[1..] == parts[1..] + [last];
      JoinAppend(parts[1..], last, sep);
    }
  }

  /** Splitting a joined list gives the list back when no piece is empty or holds the separator. */
  lemma {:induction false} SplitJoin(parts: seq<string>, sep: char)
    requires forall i :: 0 <= i < |parts| ==> |parts[i]| > 0 && sep !in parts[i]
    ensures Split(Join(parts, [sep]), sep) == parts
  {
    if |parts| == 1 {
      assert IndexOf(parts[0], sep) == |parts[0]|;
      assert parts[0][..|parts[0]|] == parts[0];
    } else if |parts| > 1 {
      var s := Join(parts, [sep]);
      var k := IndexOf(s, sep);
      assert s == parts[0] + [sep] + Join(parts[1..], [sep]);
      assert s[|parts[0]|] == sep;
      assert forall j :: 0 <= j < |parts[0]| ==> s[j] == parts[0][j];
      assert k == |parts[0]|;
      assert s[k + 1..] == Join(parts[1..], [sep]);
      assert s[..k] == parts[0];
      SplitJoin(parts[1..], sep);
    }
  }

  /** The non-empty strings of `parts`, in order. */
  function NonEmpty(parts: seq<string>): (r: seq<string>)
    ensures forall i :: 0 <= i < |r| ==> |r[i]| > 0
  {
    if |parts| == 0 then [] else (if parts[0] == "" then [] else [parts[0]]) + NonEmpty(parts[1..])
  }

  /** Splitting a joined list gives back its non-empty pieces when no piece holds the separator. */
  lemma {:induction false} SplitJoinSkipsEmpty(parts: seq<string>, sep: char)
    requires forall i :: 0 <= i < |parts| ==> sep !in parts[i]
    ensures Split(Join(parts, [sep]), sep) == NonEmpty(parts)
  {
    if |parts| == 1 {
      SplitWhole(parts[0], sep);
    } else if |parts| > 1 {
      SplitAtSeparator(parts[0], Join(parts[1..], [sep]), sep);
      SplitJoinSkipsEmpty(parts[1..], sep);
    }
  }

  lemma SeparatorAssociates(a: string, c: char, b: string)
    ensures a + [c] + b == a + ([c] + b)
  {
  }

  /** A text without the separator splits into itself, or into nothing when it is empty. */
  lemma SplitWhole(head: string, sep: char)
    requires sep !in head
    ensures Split(head, sep) == if head == "" then [] else [head]
  {
    assert IndexOf(head, sep) == |head|;
    assert head[..|head|] == head;
  }

  /** The first piece ends at the first separator, and an empty first piece is skipped. */
  lemma SplitAtSeparator(head: string, rest: string, sep: char)
    requires sep !in head
    ensures Split(head + [sep] + rest, sep) == (if head == "" then [] else [head]) + Split(rest, sep)
  {
    var s := head + [sep] + rest;
    SeparatorAssociates(head, sep, rest);
    IndexOfConcat(head, [sep] + rest, sep);
    assert IndexOf(s, sep) == |head|;
    assert s[|head| + 1..] == rest;
    assert s[..|head|] == head;
  }

  /** A decimal rendering holds only digits and a leading minus sign, so never a list separator. */
  lemma IntToStringCharacters(i: int)
    ensures forall k :: 0 <= k < |IntToString(i)| ==> IsDigit(IntToString(i)[k]) || (k == 0 && i < 0 && IntToString(i)[k] == '-')
  {
    if i < 0 {
      var s := IntToString(i);
      assert s == "-" + NatToString(-i);
      forall k | 1 <= k < |s|
        ensures IsDigit(s[k])
      {
        assert s[k] == NatToString(-i)[k - 1];
      }
    }
  }

  /** The decimal renderings of `ns`, in order. */
  function IntStrings(ns: seq<int>): (r: seq<string>)
    ensures |r| == |ns|
    ensures forall i :: 0 <= i < |ns| ==> r[i] == IntToString(ns[i])
  {
    seq(|ns|, i requires 0 <= i < |ns| => IntToString(ns[i]))
  }

  /** `ns.map(\.description).joined(separator: sep)`. */
  function JoinInts(ns: seq<int>, sep: string): string
  {
    Join(IntStrings(ns), sep)
  }

  /** A comma-joined list of integers splits back into the renderings of the same integers, which parse back. */
  lemma JoinIntsSplit(ns: seq<int>, sep: char)
    requires sep != '-' && !IsDigit(sep)
    ensures Split(JoinInts(ns, [sep]), sep) == IntStrings(ns)
    ensures forall i :: 0 <= i < |ns| && INT64_MIN <= ns[i] <= INT64_MAX ==> ParseInt(Split(JoinInts(ns, [sep]), sep)[i]) == Some(ns[i])
  {
    var parts := IntStrings(ns);
    forall i | 0 <= i < |parts|
      ensures |parts[i]| > 0 && sep !in parts[i]
    {
      IntToStringCharacters(ns[i]);
    }
    SplitJoin(parts, sep);
    forall i | 0 <= i < |ns| && INT64_MIN <= ns[i] <= INT64_MAX
      ensures ParseInt(parts[i]) == Some(ns[i])
    {
      ParseIntOfIntToString(ns[i]);
    }
  }

  /** Characters of Foundation's `.whitespaces` set that ASCII text can hold: space and tab. */
  predicate IsWhitespace(c: char) { c == ' ' || c == '\t' }

  /** `trimmingCharacters(in: .whitespaces)`. */
  function Trim(s: string): (t: string)
    ensures |t| <= |s|
    ensures |t| > 0 ==> !IsWhitespace(t[0]) && !IsWhitespace(t[|t| - 1])
    decreases |s|
  {
    if |s| > 0 && IsWhitespace(s[0]) then Trim(s[1..])
    else if |s| > 0 && IsWhitespace(s[|s| - 1]) then Trim(s[..|s| - 1])
    else s
  }

  predicate AllWhitespace(s: string) {
    forall k :: 0 <= k < |s| ==> IsWhitespace(s[k])
  }

  /** Trimming removes only a run of spaces and tabs at each end: the rest of the text is kept as it was. */
  lemma {:induction false} TrimKeepsInfix(s: string)
    ensures exists i, j :: 0 <= i <= j <= |s| && Trim(s) == s[i..j] && AllWhitespace(s[..i]) && AllWhitespace(s[j..])
    decreases |s|
  {
    if |s| > 0 && IsWhitespace(s[0]) {
      var r := s[1..];
      TrimKeepsInfix(r);
      var i, j :| 0 <= i <= j <= |r| && Trim(r) == r[i..j] && AllWhitespace(r[..i]) && AllWhitespace(r[j..]);
      LeadingStep(s, i, j);
    } else if |s| > 0 && IsWhitespace(s[|s| - 1]) {
      var p := s[..|s| - 1];
      TrimKeepsInfix(p);
      var i, j :| 0 <= i <= j <= |p| && Trim(p) == p[i..j] && AllWhitespace(p[..i]) && AllWhitespace(p[j..]);
      TrailingStep(s, i, j);
    } else {
      assert Trim(s) == s[0..|s|];
      assert s[..0] == [] && s[|s|..] == [];
    }
  }

  lemma LeadingStep(s: string, i: nat, j: nat)
    requires |s| > 0 && IsWhitespace(s[0]) && i <= j <= |s| - 1
    requires AllWhitespace(s[1..][..i]) && AllWhitespace(s[1..][j..])
    ensures s[1..][i..j] == s[i + 1..j + 1]
    ensures AllWhitespace(s[..i + 1]) && AllWhitespace(s[j + 1..])
  {
    assert s[..i + 1] == [s[0]] + s[1..][..i];
    assert s[j + 1..] == s[1..][j..];
  }

  lemma TrailingStep(s: string, i: nat, j: nat)
    requires |s| > 0 && IsWhitespace(s[|s| - 1]) && i <= j <= |s| - 1
    requires AllWhitespace(s[..|s| - 1][..i]) && AllWhitespace(s[..|s| - 1][j..])
    ensures s[..|s| - 1][i..j] == s[i..j]
    ensures AllWhitespace(s[..i]) && AllWhitespace(s[j..])
  {
    assert s[..i] == s[..|s| - 1][..i];
    assert s[j..] == s[..|s| - 1][j..] + [s[|s| - 1]];
  }
}
