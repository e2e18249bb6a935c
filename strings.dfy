/**
 * The JavaScript string operations the modelled code relies on, for strings
 * as sequences of characters: `split` on one character, `join`, `trim`,
 * `includes`, `startsWith`/`endsWith`, ASCII case mapping and the decimal
 * rendering of a non-negative number in a template literal.
 */
module Strings {

  /** `s.split(sep)`: the pieces between separators, empty pieces included. */
  function Split(s: string, sep: char): (parts: seq<string>)
    ensures |parts| >= 1
    ensures forall k :: 0 <= k < |parts| ==> sep !in parts[k]
    decreases |s|
  {
    if |s| == 0 then [""]
    else if s[0] == sep then [""] + Split(s[1..], sep)
    else
      var rest := Split(s[1..], sep);
      [[s[0]] + rest[0]] + rest[1..]
  }

  /** `parts.join(sep)` for a one-character separator. */
  function Join(parts: seq<string>, sep: char): string
    decreases |parts|
  {
    if |parts| == 0 then ""
    else if |parts| == 1 then parts[0]
    else parts[0] + [sep] + Join(parts[1..], sep)
  }

  /** Joining the pieces of a split with the same separator gives back the string. */
  lemma {:induction false} JoinSplit(s: string, sep: char)
    ensures Join(Split(s, sep), sep) == s
    decreases |s|
  {
    if |s| == 0 {
    } else if s[0] == sep {
      JoinSplit(s[1..], sep);
      assert s == [sep] + s[1..];
    } else {
      JoinSplit(s[1..], sep);
      var rest := Split(s[1..], sep);
      if |rest| == 1 {
        assert s == [s[0]] + s[1..];
      } else {
        assert Join(rest, sep) == rest[0] + [sep] + Join(rest[1..], sep);
        assert s == [s[0]] + s[1..];
      }
    }
  }

  /** A split has one more piece than the string has separators. */
  lemma {:induction false} SplitCount(s: string, sep: char)
    ensures |Split(s, sep)| == multiset(s)[sep] + 1
    decreases |s|
  {
    if |s| > 0 {
      SplitCount(s[1..], sep);
      assert s == [s[0]] + s[1..];
      assert multiset(s) == multiset{s[0]} + multiset(s[1..]);
    }
  }

  /** Splitting a string made of a separator-free head, the separator and a tail. */
  lemma {:induction false} SplitAtSeparator(a: string, sep: char, b: string)
    requires sep !in a
    ensures Split(a + [sep] + b, sep) == [a] + Split(b, sep)
    decreases |a|
  {
    if |a| == 0 {
      assert a + [sep] + b == [sep] + b;
      assert ([sep] + b)[1..] == b;
    } else {
      SplitAtSeparator(a[1..], sep, b);
      var s := a + [sep] + b;
      assert s[0] == a[0] && s[1..] == a[1..] + [sep] + b;
      assert [a[0]] + a[1..] == a;
    }
  }

  /** A string without the separator splits into itself alone. */
  lemma {:induction false} SplitNoSeparator(s: string, sep: char)
    requires sep !in s
    ensures Split(s, sep) == [s]
    decreases |s|
  {
    if |s| > 0 {
      SplitNoSeparator(s[1..], sep);
      assert [s[0]] + s[1..] == s;
    }
  }

  /** The space, line-terminator and Unicode space characters that `String.prototype.trim` removes. */
  predicate IsWhiteSpace(c: char) {
    c == ' ' || c == '\t' || c == '\n' || c == '\r' || c == '\U{0B}' || c == '\U{0C}'
    || c == '\U{A0}' || c == '\U{1680}' || ('\U{2000}' <= c <= '\U{200A}')
    || c == '\U{2028}' || c == '\U{2029}' || c == '\U{202F}' || c == '\U{205F}'
    || c == '\U{3000}' || c == '\U{FEFF}'
  }

  /** How many white-space characters `s` starts with. */
  function LeadingWhiteSpace(s: string): (n: nat)
    ensures n <= |s|
    ensures forall k :: 0 <= k < n ==> IsWhiteSpace(s[k])
    ensures n < |s| ==> !IsWhiteSpace(s[n])
    decreases |s|
  {
    if |s| > 0 && IsWhiteSpace(s[0]) then 1 + LeadingWhiteSpace(s[1..]) else 0
  }

  /** How many white-space characters `s` ends with. */
  function TrailingWhiteSpace(s: string): (n: nat)
    ensures n <= |s|
    ensures forall k :: |s| - n <= k < |s| ==> IsWhiteSpace(s[k])
    ensures n < |s| ==> !IsWhiteSpace(s[|s| - 1 - n])
    decreases |s|
  {
    if |s| > 0 && IsWhiteSpace(s[|s| - 1]) then 1 + TrailingWhiteSpace(s[..|s| - 1]) else 0
  }

  /**
   * `s.trim()`: the slice of `s` between its leading and its trailing white
   * space. It starts and ends with a character that is not white space, so
   * together with the slice bounds this fixes the result.
   */
  function Trim(s: string): (r: string)
    ensures LeadingWhiteSpace(s) + |r| <= |s|
    ensures r == s[LeadingWhiteSpace(s)..LeadingWhiteSpace(s) + |r|]
    ensures forall k :: 0 <= k < LeadingWhiteSpace(s) ==> IsWhiteSpace(s[k])
    ensures forall k :: LeadingWhiteSpace(s) + |r| <= k < |s| ==> IsWhiteSpace(s[k])
    ensures |r| > 0 ==> !IsWhiteSpace(r[0]) && !IsWhiteSpace(r[|r| - 1])
    ensures (|s| == 0 || (!IsWhiteSpace(s[0]) && !IsWhiteSpace(s[|s| - 1]))) ==> r == s
    ensures (forall k :: 0 <= k < |s| ==> !IsWhiteSpace(s[k])) ==> r == s
    ensures forall c :: c in r ==> c in s
  {
    var i := LeadingWhiteSpace(s);
    if i == |s| then ""
    else
      var j := |s| - TrailingWhiteSpace(s);
      assert !IsWhiteSpace(s[i]);
      s[i..j]
  }

  /** Trimming twice is trimming once. */
  lemma TrimIdempotent(s: string)
    ensures Trim(Trim(s)) == Trim(s)
  {
  }

  /** `s.startsWith(p)`. */
  predicate StartsWith(s: string, p: string) {
    |p| <= |s| && s[..|p|] == p
  }

  /** `s.endsWith(p)`. */
  predicate EndsWith(s: string, p: string) {
    |p| <= |s| && s[|s| - |p|..] == p
  }

  /** `s.includes(p)`, searched from the left. */
  predicate Contains(s: string, p: string)
    decreases |s|
  {
    StartsWith(s, p) || (|s| > 0 && Contains(s[1..], p))
  }

  /** The pattern occurs in `s` starting at index `i`. */
  predicate OccursAt(s: string, p: string, i: nat) {
    i + |p| <= |s| && s[i..i + |p|] == p
  }

  /** `includes` holds exactly when the pattern occurs at some position. */
  lemma {:induction false} ContainsAt(s: string, p: string)
    ensures Contains(s, p) <==> exists i: nat :: OccursAt(s, p, i)
    decreases |s|
  {
    if StartsWith(s, p) {
      assert OccursAt(s, p, 0);
    } else if |s| > 0 {
      ContainsAt(s[1..], p);
      if Contains(s[1..], p) {
        var i: nat :| OccursAt(s[1..], p, i);
        assert s[1..][i..i + |p|] == s[i + 1..i + 1 + |p|];
        assert OccursAt(s, p, i + 1);
      }
      if i: nat :| OccursAt(s, p, i) {
        assert i > 0;
        assert s[1..][i - 1..i - 1 + |p|] == s[i..i + |p|];
        assert OccursAt(s[1..], p, i - 1);
      }
    }
  }

  /** A string that includes `p` holds every character of `p`. */
  lemma ContainsMembers(s: string, p: string)
    ensures Contains(s, p) ==> forall c :: c in p ==> c in s
  {
    ContainsAt(s, p);
    if Contains(s, p) {
      var i: nat :| OccursAt(s, p, i);
      assert forall k :: 0 <= k < |p| ==> p[k] == s[i + k];
    }
  }

  /** The strings that survive `filter(x => x.length > 0)`, in order. */
  function KeepNonEmpty(xs: seq<string>): (r: seq<string>)
    ensures forall k :: 0 <= k < |r| ==> |r[k]| > 0
    ensures |r| <= |xs|
    decreases |xs|
  {
    if |xs| == 0 then []
    else KeepNonEmpty(xs[..|xs| - 1]) + (if |xs[|xs| - 1]| > 0 then [xs[|xs| - 1]] else [])
  }

  /** The indices of the non-empty strings of `xs`, in increasing order. */
  function NonEmptyPositions(xs: seq<string>): (pos: seq<nat>)
    ensures forall k :: 0 <= k < |pos| ==> pos[k] < |xs| && |xs[pos[k]]| > 0
    ensures forall k, l :: 0 <= k < l < |pos| ==> pos[k] < pos[l]
    decreases |xs|
  {
    if |xs| == 0 then []
    else
      var init := NonEmptyPositions(xs[..|xs| - 1]);
      assert forall k :: 0 <= k < |init| ==> xs[..|xs| - 1][init[k]] == xs[init[k]];
      if |xs[|xs| - 1]| > 0 then init + [|xs| - 1] else init
  }

  /** Every non-empty string's index is listed. */
  lemma {:induction false} NonEmptyPositionsComplete(xs: seq<string>, i: nat)
    requires i < |xs| && |xs[i]| > 0
    ensures i in NonEmptyPositions(xs)
    decreases |xs|
  {
    if i < |xs| - 1 {
      assert xs[..|xs| - 1][i] == xs[i];
      NonEmptyPositionsComplete(xs[..|xs| - 1], i);
    }
  }

  /**
   * The filter keeps exactly the non-empty strings and keeps them in order:
   * its k-th result is the input at the k-th non-empty position.
   */
  lemma KeepNonEmptyAt(xs: seq<string>)
    ensures |KeepNonEmpty(xs)| == |NonEmptyPositions(xs)|
    ensures forall k :: 0 <= k < |KeepNonEmpty(xs)| ==> KeepNonEmpty(xs)[k] == xs[NonEmptyPositions(xs)[k]]
  {
    KeepNonEmptyLength(xs);
    forall k | 0 <= k < |KeepNonEmpty(xs)| ensures KeepNonEmpty(xs)[k] == xs[NonEmptyPositions(xs)[k]] {
      KeepNonEmptyIndex(xs, k);
    }
  }

  /** The filter keeps as many strings as there are non-empty positions. */
  lemma {:induction false} KeepNonEmptyLength(xs: seq<string>)
    ensures |KeepNonEmpty(xs)| == |NonEmptyPositions(xs)|
    decreases |xs|
  {
    if |xs| > 0 {
      KeepNonEmptyLength(xs[..|xs| - 1]);
    }
  }

  /** The k-th kept string is the one at the k-th non-empty position. */
  lemma {:induction false} KeepNonEmptyIndex(xs: seq<string>, k: nat)
    requires k < |KeepNonEmpty(xs)|
    ensures k < |NonEmptyPositions(xs)|
    ensures KeepNonEmpty(xs)[k] == xs[NonEmptyPositions(xs)[k]]
    decreases |xs|
  {
    var init := xs[..|xs| - 1];
    KeepNonEmptyLength(xs);
    KeepNonEmptyLength(init);
    if k < |KeepNonEmpty(init)| {
      KeepNonEmptyIndex(init, k);
      assert init[NonEmptyPositions(init)[k]] == xs[NonEmptyPositions(init)[k]];
    }
  }

  predicate IsAsciiLower(c: char) { 'a' <= c <= 'z' }

  predicate IsAsciiUpper(c: char) { 'A' <= c <= 'Z' }

  /** `toUpperCase` restricted to ASCII letters; every other character is kept. */
  function ToAsciiUpper(c: char): (u: char)
    ensures IsAsciiLower(c) ==> IsAsciiUpper(u)
    ensures !IsAsciiLower(c) ==> u == c
  {
    if IsAsciiLower(c) then (c as int - 32) as char else c
  }

  /** `toLowerCase` restricted to ASCII letters. */
  function ToAsciiLower(c: char): (l: char)
    ensures IsAsciiUpper(c) ==> IsAsciiLower(l)
    ensures !IsAsciiUpper(c) ==> l == c
  {
    if IsAsciiUpper(c) then (c as int + 32) as char else c
  }

  /** A string with every ASCII letter lowered. */
  function LowerAscii(s: string): (r: string)
    ensures |r| == |s| && forall k :: 0 <= k < |s| ==> r[k] == ToAsciiLower(s[k])
  {
    seq(|s|, k requires 0 <= k < |s| => ToAsciiLower(s[k]))
  }

  /** The decimal digit for 0..9. */
  function Digit(d: nat): char
    requires d < 10
  {
    ('0' as int + d) as char
  }

  /** A non-negative number as a template literal renders it: decimal, no leading zeros. */
  function NatToString(n: nat): (r: string)
    ensures |r| >= 1
    ensures forall k :: 0 <= k < |r| ==> '0' <= r[k] <= '9'
    ensures |r| > 1 ==> r[0] != '0'
  {
    if n < 10 then [Digit(n)] else NatToString(n / 10) + [Digit(n % 10)]
  }

  /** The number a string of decimal digits denotes. */
  function DecimalValue(s: string): nat
    requires forall k :: 0 <= k < |s| ==> '0' <= s[k] <= '9'
  {
    if |s| == 0 then 0 else DecimalValue(s[..|s| - 1]) * 10 + (s[|s| - 1] as int - '0' as int)
  }

  /** Reading back the decimal rendering gives the number. */
  lemma {:induction false} NatToStringRoundTrip(n: nat)
    ensures DecimalValue(NatToString(n)) == n
  {
    if n >= 10 {
      NatToStringRoundTrip(n / 10);
      var r := NatToString(n);
      assert r[..|r| - 1] == NatToString(n / 10);
    }
  }
}
