/**
 * The string and time helpers of src/lib/helpers.ts: `decamelize`,
 * `capitalizeWords` and `getTimeBetween`. ccported/src/lib/helpers.ts
 * defines `decamelize` and `capitalizeWords` with the same bodies, but has
 * no `getTimeBetween`.
 */
module Helpers {
  import opened Strings

  /** Position `i` starts a lower-then-upper ASCII pair, a match of `/([a-z])([A-Z])/`. */
  predicate IsBoundary(s: string, i: int) {
    0 <= i && i + 1 < |s| && IsAsciiLower(s[i]) && IsAsciiUpper(s[i + 1])
  }

  /**
   * `s.replace(/([a-z])([A-Z])/g, '$1 $2')`: the global replace scans left
   * to right and resumes after each match.
   */
  function Decamelize(s: string): (r: string)
    ensures |r| >= |s|
    decreases |s|
  {
    if |s| < 2 then s
    else if IsAsciiLower(s[0]) && IsAsciiUpper(s[1]) then [s[0], ' ', s[1]] + Decamelize(s[2..])
    else [s[0]] + Decamelize(s[1..])
  }

  /** Independent reference: every character, followed by a space where it starts a boundary. */
  function SpaceBoundaries(s: string): string
    decreases |s|
  {
    if |s| == 0 then ""
    else (if IsBoundary(s, 0) then [s[0], ' '] else [s[0]]) + SpaceBoundaries(s[1..])
  }

  /** The number of lower-then-upper boundaries of `s`. */
  function BoundaryCount(s: string): nat
    decreases |s|
  {
    if |s| == 0 then 0 else (if IsBoundary(s, 0) then 1 else 0) + BoundaryCount(s[1..])
  }

  /**
   * The scan inserts a space at every boundary and changes nothing else:
   * matches cannot overlap, because a match ends with an upper-case letter
   * and the next one must start with a lower-case one.
   */
  lemma {:induction false} DecamelizeSpacesBoundaries(s: string)
    ensures Decamelize(s) == SpaceBoundaries(s)
    decreases |s|
  {
    if |s| == 1 {
      assert SpaceBoundaries(s) == [s[0]] + SpaceBoundaries(s[1..]);
    } else if |s| >= 2 {
      if IsAsciiLower(s[0]) && IsAsciiUpper(s[1]) {
        DecamelizeSpacesBoundaries(s[2..]);
        assert s[1..][1..] == s[2..];
        assert !IsBoundary(s[1..], 0);
        assert SpaceBoundaries(s[1..]) == [s[1]] + SpaceBoundaries(s[2..]);
      } else {
        DecamelizeSpacesBoundaries(s[1..]);
      }
    }
  }

  /** The output is one character longer per boundary of the input. */
  lemma {:induction false} DecamelizeLength(s: string)
    ensures |Decamelize(s)| == |s| + BoundaryCount(s)
    decreases |s|
  {
    DecamelizeSpacesBoundaries(s);
    SpaceBoundariesLength(s);
  }

  lemma {:induction false} SpaceBoundariesLength(s: string)
    ensures |SpaceBoundaries(s)| == |s| + BoundaryCount(s)
    decreases |s|
  {
    if |s| > 0 {
      SpaceBoundariesLength(s[1..]);
    }
  }

  /** `s` has no lower-then-upper boundary. */
  predicate NoBoundary(s: string) {
    forall i :: 0 <= i < |s| - 1 ==> !(IsAsciiLower(s[i]) && IsAsciiUpper(s[i + 1]))
  }

  /** The spaced string starts with the same character. */
  lemma SpaceBoundariesHead(s: string)
    requires |s| > 0
    ensures |SpaceBoundaries(s)| > 0 && SpaceBoundaries(s)[0] == s[0]
  {
  }

  /** No boundary survives the spacing. */
  lemma {:induction false} SpaceBoundariesNoBoundary(s: string)
    ensures NoBoundary(SpaceBoundaries(s))
    decreases |s|
  {
    if |s| > 0 {
      SpaceBoundariesNoBoundary(s[1..]);
      var rest := SpaceBoundaries(s[1..]);
      var r := SpaceBoundaries(s);
      if IsBoundary(s, 0) {
        assert r == [s[0], ' '] + rest;
        forall i | 0 <= i < |r| - 1 ensures !(IsAsciiLower(r[i]) && IsAsciiUpper(r[i + 1])) {
          if i >= 2 {
            assert r[i] == rest[i - 2] && r[i + 1] == rest[i - 1];
          }
        }
      } else {
        assert r == [s[0]] + rest;
        forall i | 0 <= i < |r| - 1 ensures !(IsAsciiLower(r[i]) && IsAsciiUpper(r[i + 1])) {
          if i == 0 {
            SpaceBoundariesHead(s[1..]);
            assert r[1] == s[1];
          } else {
            assert r[i] == rest[i - 1] && r[i + 1] == rest[i];
          }
        }
      }
    }
  }

  /** A string without boundaries is left as it is. */
  lemma {:induction false} DecamelizeFixpoint(s: string)
    requires NoBoundary(s)
    ensures Decamelize(s) == s
    decreases |s|
  {
    if |s| >= 2 {
      assert !(IsAsciiLower(s[0]) && IsAsciiUpper(s[1]));
      assert NoBoundary(s[1..]) by {
        forall i | 0 <= i < |s[1..]| - 1 ensures !(IsAsciiLower(s[1..][i]) && IsAsciiUpper(s[1..][i + 1])) {
          assert s[1..][i] == s[i + 1] && s[1..][i + 1] == s[i + 2];
        }
      }
      DecamelizeFixpoint(s[1..]);
      assert [s[0]] + s[1..] == s;
    }
  }

  /** Decamelizing twice is decamelizing once. */
  lemma DecamelizeIdempotent(s: string)
    ensures Decamelize(Decamelize(s)) == Decamelize(s)
  {
    DecamelizeSpacesBoundaries(s);
    SpaceBoundariesNoBoundary(s);
    DecamelizeFixpoint(Decamelize(s));
  }

  /** `s` without its spaces. */
  function RemoveSpaces(s: string): (r: string)
    decreases |s|
  {
    if |s| == 0 then "" else (if s[0] == ' ' then "" else [s[0]]) + RemoveSpaces(s[1..])
  }

  /** For input without spaces, dropping the spaces of the output gives back the input. */
  lemma {:induction false} DecamelizeOnlyAddsSpaces(s: string)
    requires ' ' !in s
    ensures RemoveSpaces(Decamelize(s)) == s
  {
    DecamelizeSpacesBoundaries(s);
    RemoveSpacesOfSpaced(s);
  }

  lemma {:induction false} RemoveSpacesOfSpaced(s: string)
    requires ' ' !in s
    ensures RemoveSpaces(SpaceBoundaries(s)) == s
    decreases |s|
  {
    if |s| > 0 {
      RemoveSpacesOfSpaced(s[1..]);
      var rest := SpaceBoundaries(s[1..]);
      if IsBoundary(s, 0) {
        assert ([s[0], ' '] + rest)[1..] == [' '] + rest;
        assert ([' '] + rest)[1..] == rest;
      } else {
        assert ([s[0]] + rest)[1..] == rest;
      }
      assert [s[0]] + s[1..] == s;
    }
  }

  /**
   * Two boundary-free words, the first ending in a lower-case letter and the
   * second starting with an upper-case one, get one space between them.
   */
  lemma {:induction false} DecamelizeTwoWords(a: string, b: string)
    requires |a| > 0 && |b| > 0 && NoBoundary(a) && NoBoundary(b)
    requires IsAsciiLower(a[|a| - 1]) && IsAsciiUpper(b[0])
    ensures Decamelize(a + b) == a + " " + b
    decreases |a|
  {
    if |a| == 1 {
      NoBoundaryTail(b);
      DecamelizeFixpoint(b[1..]);
      DecamelizeLastOfFirstWord(a[0], b);
      assert a == [a[0]];
    } else {
      NoBoundaryTail(a);
      DecamelizeTwoWords(a[1..], b);
      DecamelizeInsideFirstWord(a[0], a[1..], b);
      assert a == [a[0]] + a[1..];
    }
  }

  lemma DecamelizeLastOfFirstWord(c: char, b: string)
    requires IsAsciiLower(c) && |b| > 0 && IsAsciiUpper(b[0]) && Decamelize(b[1..]) == b[1..]
    ensures Decamelize([c] + b) == [c] + " " + b
  {
    assert [c] + b == [c, b[0]] + b[1..];
    DecamelizeSplits(c, b[0], b[1..]);
    assert [c, ' ', b[0]] + b[1..] == [c] + " " + b;
  }

  lemma DecamelizeInsideFirstWord(c: char, rest: string, b: string)
    requires |rest| > 0 && !(IsAsciiLower(c) && IsAsciiUpper(rest[0]))
    requires Decamelize(rest + b) == rest + " " + b
    ensures Decamelize([c] + rest + b) == [c] + rest + " " + b
  {
    assert (rest + b)[0] == rest[0];
    DecamelizeKeeps(c, rest + b);
    assert [c] + rest + b == [c] + (rest + b);
    assert [c] + (rest + " " + b) == [c] + rest + " " + b;
  }

  /** A character that does not start a boundary is copied and the scan moves on by one. */
  lemma DecamelizeKeeps(c: char, t: string)
    requires |t| == 0 || !(IsAsciiLower(c) && IsAsciiUpper(t[0]))
    ensures Decamelize([c] + t) == [c] + Decamelize(t)
  {
    assert ([c] + t)[1..] == t;
  }

  /** A boundary pair gets its space and the scan resumes after it. */
  lemma DecamelizeSplits(c: char, d: char, t: string)
    requires IsAsciiLower(c) && IsAsciiUpper(d)
    ensures Decamelize([c, d] + t) == [c, ' ', d] + Decamelize(t)
  {
    assert ([c, d] + t)[2..] == t;
  }

  /** Dropping the first character keeps a string free of boundaries. */
  lemma NoBoundaryTail(s: string)
    requires |s| > 0 && NoBoundary(s)
    ensures NoBoundary(s[1..])
  {
    forall i | 0 <= i < |s[1..]| - 1 ensures !(IsAsciiLower(s[1..][i]) && IsAsciiUpper(s[1..][i + 1])) {
      assert s[1..][i] == s[i + 1] && s[1..][i + 1] == s[i + 2];
    }
  }

  /** `HelloWorld` becomes `Hello World`. */
  lemma DecamelizeHelloWorld(s: string)
    requires s == "HelloWorld"
    ensures Decamelize(s) == "Hello World"
  {
    var hello, world := "Hello", "World";
    assert NoBoundary(hello) && NoBoundary(world);
    assert s == hello + world;
    DecamelizeTwoWords(hello, world);
  }

  /** `word.charAt(0).toUpperCase() + word.slice(1)`, for ASCII letters. */
  function CapitalizeWord(w: string): (r: string)
    ensures |r| == |w|
    ensures |w| > 0 ==> r[0] == ToAsciiUpper(w[0]) && r[1..] == w[1..]
  {
    if |w| == 0 then "" else [ToAsciiUpper(w[0])] + w[1..]
  }

  /** Each of the words capitalized. */
  function CapitalizeAll(words: seq<string>): (r: seq<string>)
    ensures |r| == |words|
  {
    seq(|words|, i requires 0 <= i < |words| => CapitalizeWord(words[i]))
  }

  /** `capitalizeWords`: split on `_`, capitalize every piece, join with a space. */
  function CapitalizeWords(s: string): string {
    Join(CapitalizeAll(Split(s, '_')), ' ')
  }

  /**
   * Independent reference, character by character: an underscore becomes a
   * space, a character at the start or after an underscore is upper-cased,
   * every other character is kept.
   */
  function CapitalizeChars(s: string): (r: string)
    ensures |r| == |s|
  {
    seq(|s|, i requires 0 <= i < |s| =>
      if s[i] == '_' then ' '
      else if i == 0 || s[i - 1] == '_' then ToAsciiUpper(s[i])
      else s[i])
  }

  /** The reference on a string made of a piece without `_`, an underscore and the rest. */
  lemma CapitalizeCharsSplit(a: string, b: string)
    requires '_' !in a
    ensures CapitalizeChars(a + "_" + b) == CapitalizeWord(a) + " " + CapitalizeChars(b)
  {
    var s := a + "_" + b;
    var lhs := CapitalizeChars(s);
    var rhs := CapitalizeWord(a) + " " + CapitalizeChars(b);
    forall i | 0 <= i < |s| ensures lhs[i] == rhs[i] {
      if i < |a| {
        assert s[i] == a[i];
        if i > 0 { assert s[i - 1] == a[i - 1]; }
      } else if i == |a| {
      } else {
        assert s[i] == b[i - |a| - 1];
        if i == |a| + 1 { assert s[i - 1] == '_'; } else { assert s[i - 1] == b[i - |a| - 2]; }
      }
    }
  }

  /** `capitalizeWords` is the character-wise rewrite. */
  lemma {:induction false} CapitalizeWordsChars(s: string)
    ensures CapitalizeWords(s) == CapitalizeChars(s)
    decreases |s|
  {
    if '_' !in s {
      CapitalizeOnePiece(s);
    } else {
      var j := FirstIndex(s, '_');
      var a, b := s[..j], s[j + 1..];
      assert '_' !in a;
      assert s == a + "_" + b;
      CapitalizeWordsChars(b);
      CapitalizeWordsCons(a, b);
      CapitalizeCharsSplit(a, b);
    }
  }

  /** A string without `_` is one word. */
  lemma CapitalizeOnePiece(s: string)
    requires '_' !in s
    ensures CapitalizeWords(s) == CapitalizeChars(s)
  {
    SplitNoSeparator(s, '_');
    assert CapitalizeAll([s]) == [CapitalizeWord(s)];
    forall i | 0 <= i < |s| ensures CapitalizeWord(s)[i] == CapitalizeChars(s)[i] {
      if i > 0 { assert s[i - 1] != '_'; }
    }
  }

  /** The first word, a space, and the rest rewritten. */
  lemma CapitalizeWordsCons(a: string, b: string)
    requires '_' !in a
    ensures CapitalizeWords(a + "_" + b) == CapitalizeWord(a) + " " + CapitalizeWords(b)
  {
    SplitAtSeparator(a, '_', b);
    assert a + "_" + b == a + ['_'] + b;
    var rest := Split(b, '_');
    CapitalizeAllCons(a, rest);
    JoinCons(CapitalizeWord(a), CapitalizeAll(rest), ' ');
  }

  /** Capitalizing a list that starts with `x`. */
  lemma CapitalizeAllCons(x: string, xs: seq<string>)
    ensures CapitalizeAll([x] + xs) == [CapitalizeWord(x)] + CapitalizeAll(xs)
  {
    var l, r := CapitalizeAll([x] + xs), [CapitalizeWord(x)] + CapitalizeAll(xs);
    assert |l| == |r|;
    forall i | 0 <= i < |l| ensures l[i] == r[i] {
      if i > 0 { assert ([x] + xs)[i] == xs[i - 1]; }
    }
  }

  /** The index of the first occurrence of `c`. */
  function FirstIndex(s: string, c: char): (j: nat)
    requires c in s
    ensures j < |s| && s[j] == c && forall k :: 0 <= k < j ==> s[k] != c
    decreases |s|
  {
    if s[0] == c then 0
    else
      assert c in s[1..] by {
        var i :| 0 <= i < |s| && s[i] == c;
        assert s[1..][i - 1] == c;
      }
      var j := FirstIndex(s[1..], c);
      assert s[j + 1] == s[1..][j];
      assert forall k :: 0 < k < j + 1 ==> s[k] == s[1..][k - 1];
      j + 1
  }

  /** Joining a head and a non-empty tail puts the separator between them. */
  lemma JoinCons(x: string, xs: seq<string>, sep: char)
    requires |xs| >= 1
    ensures Join([x] + xs, sep) == x + [sep] + Join(xs, sep)
  {
    assert ([x] + xs)[1..] == xs;
  }

  /**
   * `capitalizeWords` never leaves an underscore, turns each underscore into
   * a space, keeps the length, and upper-cases only the first character of
   * each piece.
   */
  lemma CapitalizeWordsSpec(s: string)
    ensures '_' !in CapitalizeWords(s)
    ensures |CapitalizeWords(s)| == |s|
    ensures forall i :: 0 <= i < |s| && s[i] == '_' ==> CapitalizeWords(s)[i] == ' '
    ensures forall i :: 0 < i < |s| && s[i] != '_' && s[i - 1] != '_' ==> CapitalizeWords(s)[i] == s[i]
    ensures multiset(CapitalizeWords(s))[' '] == multiset(s)[' '] + multiset(s)['_']
  {
    CapitalizeWordsChars(s);
    var r := CapitalizeChars(s);
    assert forall i :: 0 <= i < |r| ==> r[i] != '_';
    CapitalizeSpaces(s);
  }

  /** The spaces of the reference are the spaces and the underscores of the input. */
  lemma CapitalizeSpaces(s: string)
    ensures multiset(CapitalizeChars(s))[' '] == multiset(s)[' '] + multiset(s)['_']
  {
    var r := CapitalizeChars(s);
    forall i | 0 <= i < |s| ensures r[i] == ' ' <==> s[i] == ' ' || s[i] == '_' {
      if s[i] != '_' && s[i] != ' ' {
        assert r[i] == s[i] || r[i] == ToAsciiUpper(s[i]);
      }
    }
    SpacesWhereSpacesOrUnderscores(r, s);
  }

  /** A string with a space exactly where another has a space or an underscore has as many spaces as the other has of both. */
  lemma {:induction false} SpacesWhereSpacesOrUnderscores(r: string, s: string)
    requires |r| == |s|
    requires forall i :: 0 <= i < |s| ==> (r[i] == ' ' <==> s[i] == ' ' || s[i] == '_')
    ensures multiset(r)[' '] == multiset(s)[' '] + multiset(s)['_']
    decreases |s|
  {
    if |s| > 0 {
      var r', s' := r[1..], s[1..];
      forall i | 0 <= i < |s'| ensures r'[i] == ' ' <==> s'[i] == ' ' || s'[i] == '_' {
        assert r'[i] == r[i + 1] && s'[i] == s[i + 1];
      }
      SpacesWhereSpacesOrUnderscores(r', s');
      assert r == [r[0]] + r' && s == [s[0]] + s';
      ConsCount(r[0], r', ' ');
      ConsCount(s[0], s', ' ');
      ConsCount(s[0], s', '_');
    }
  }

  /** Prepending a character adds one to its own count and nothing to any other. */
  lemma ConsCount(x: char, t: string, c: char)
    ensures multiset([x] + t)[c] == (if x == c then 1 else 0) + multiset(t)[c]
  {
    assert multiset([x] + t) == multiset{x} + multiset(t);
  }

  /** The number of pieces `capitalizeWords` joins is the number of underscores plus one. */
  lemma CapitalizeWordsPieces(s: string)
    ensures |CapitalizeAll(Split(s, '_'))| == multiset(s)['_'] + 1
  {
    SplitCount(s, '_');
  }

  /** Without underscores only the first character can change; the empty string stays empty. */
  lemma CapitalizeWordsSingle(s: string)
    ensures CapitalizeWords("") == ""
    ensures '_' !in s && |s| > 0 ==> CapitalizeWords(s) == [ToAsciiUpper(s[0])] + s[1..]
  {
    CapitalizeWordsChars("");
    if '_' !in s && |s| > 0 {
      CapitalizeWordsChars(s);
      var r := CapitalizeChars(s);
      forall i | 0 <= i < |s| ensures r[i] == ([ToAsciiUpper(s[0])] + s[1..])[i] {
        if i > 0 { assert s[i - 1] != '_'; }
      }
    }
  }

  /** The span between two instants, broken into whole days, hours, minutes and seconds. */
  datatype Duration = Duration(days: nat, hours: nat, minutes: nat, seconds: nat)

  /** The fields of `getTimeBetween` for two instants in milliseconds. */
  function TimeBetween(t1: int, t2: int): (d: Duration)
    ensures d.hours < 24 && d.minutes < 60 && d.seconds < 60
    ensures d.days * 86400 + d.hours * 3600 + d.minutes * 60 + d.seconds == (if t2 >= t1 then t2 - t1 else t1 - t2) / 1000
  {
    var diff: nat := if t2 >= t1 then t2 - t1 else t1 - t2;
    var seconds := diff / 1000;
    var minutes := seconds / 60;
    var hours := minutes / 60;
    var days := hours / 24;
    Duration(days, hours % 24, minutes % 60, seconds % 60)
  }

  /** The span does not depend on the order of the instants. */
  lemma TimeBetweenSymmetric(t1: int, t2: int)
    ensures TimeBetween(t1, t2) == TimeBetween(t2, t1)
  {
  }

  /** Quotient and remainder by a positive constant are unique. */
  lemma DivModBy(total: nat, q: nat, r: nat, b: nat)
    requires b == 60 || b == 24
    requires r < b && total == q * b + r
    ensures q == total / b && r == total % b
  {
  }

  /** Any breakdown within the bounds that adds up to the whole seconds of the span is the one computed. */
  lemma TimeBetweenUnique(t1: int, t2: int, d: Duration)
    requires d.hours < 24 && d.minutes < 60 && d.seconds < 60
    requires d.days * 86400 + d.hours * 3600 + d.minutes * 60 + d.seconds == (if t2 >= t1 then t2 - t1 else t1 - t2) / 1000
    ensures d == TimeBetween(t1, t2)
  {
    var total: nat := (if t2 >= t1 then t2 - t1 else t1 - t2) / 1000;
    var h: nat := d.days * 24 + d.hours;
    var m: nat := h * 60 + d.minutes;
    assert total == m * 60 + d.seconds;
    DivModBy(total, m, d.seconds, 60);
    DivModBy(m, h, d.minutes, 60);
    DivModBy(h, d.days, d.hours, 24);
  }

  /** `getTimeBetween`: the template `${days}d ${remHours}h ${remMinutes}m ${remSeconds}s`. */
  function GetTimeBetween(t1: int, t2: int): string {
    var d := TimeBetween(t1, t2);
    NatToString(d.days) + "d " + NatToString(d.hours) + "h " + NatToString(d.minutes) + "m " + NatToString(d.seconds) + "s"
  }

  /** A number and its unit letter, as one token of the text. */
  function Token(n: nat, unit: char): string {
    NatToString(n) + [unit]
  }

  /** The text is four space-separated tokens, each a decimal number and its unit, that read back as the breakdown. */
  lemma GetTimeBetweenTokens(t1: int, t2: int)
    ensures var d := TimeBetween(t1, t2);
      Split(GetTimeBetween(t1, t2), ' ') == [Token(d.days, 'd'), Token(d.hours, 'h'), Token(d.minutes, 'm'), Token(d.seconds, 's')]
    ensures var d := TimeBetween(t1, t2);
      DecimalValue(NatToString(d.days)) == d.days && DecimalValue(NatToString(d.hours)) == d.hours
      && DecimalValue(NatToString(d.minutes)) == d.minutes && DecimalValue(NatToString(d.seconds)) == d.seconds
  {
    var d := TimeBetween(t1, t2);
    FourTokens(d.days, d.hours, d.minutes, d.seconds);
    NatToStringRoundTrip(d.days);
    NatToStringRoundTrip(d.hours);
    NatToStringRoundTrip(d.minutes);
    NatToStringRoundTrip(d.seconds);
  }

  /** Splitting the template on spaces gives its four tokens back. */
  lemma FourTokens(days: nat, hours: nat, minutes: nat, seconds: nat)
    ensures Split(NatToString(days) + "d " + NatToString(hours) + "h " + NatToString(minutes) + "m " + NatToString(seconds) + "s", ' ')
         == [Token(days, 'd'), Token(hours, 'h'), Token(minutes, 'm'), Token(seconds, 's')]
  {
    var a, b, c, e := Token(days, 'd'), Token(hours, 'h'), Token(minutes, 'm'), Token(seconds, 's');
    TokenHasNoSpace(days, 'd');
    TokenHasNoSpace(hours, 'h');
    TokenHasNoSpace(minutes, 'm');
    TokenHasNoSpace(seconds, 's');
    assert NatToString(days) + "d " + NatToString(hours) + "h " + NatToString(minutes) + "m " + NatToString(seconds) + "s"
        == a + [' '] + (b + [' '] + (c + [' '] + e));
    SplitAtSeparator(a, ' ', b + [' '] + (c + [' '] + e));
    SplitAtSeparator(b, ' ', c + [' '] + e);
    SplitAtSeparator(c, ' ', e);
    SplitNoSeparator(e, ' ');
  }

  lemma TokenHasNoSpace(n: nat, unit: char)
    requires unit != ' '
    ensures ' ' !in Token(n, unit)
  {
    var t := Token(n, unit);
    assert forall k :: 0 <= k < |t| - 1 ==> t[k] == NatToString(n)[k];
  }
}
