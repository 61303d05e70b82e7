/**
 * The few Python string builtins the paddock relies on: `str.lower`,
 * `str.split(" ")`, decimal rendering of an `int` in an f-string and
 * `int(...)` of a string of decimal digits.
 */
module Text {

  datatype Option<T> = None | Some(value: T)

  /** `str.lower` restricted to ASCII letters; every other character is kept. */
  function LowerChar(c: char): char
  {
    if 'A' <= c <= 'Z' then (c as int + 32) as char else c
  }

  function Lower(s: string): (r: string)
    ensures |r| == |s|
    ensures forall i :: 0 <= i < |s| ==> r[i] == LowerChar(s[i])
  {
    seq(|s|, i requires 0 <= i < |s| => LowerChar(s[i]))
  }

  /** Lowering leaves text without capital letters as it is. */
  lemma LowerOfLowercase(s: string)
    requires forall i :: 0 <= i < |s| ==> !('A' <= s[i] <= 'Z')
    ensures Lower(s) == s
  {
  }

  /** Lowering keeps every character that is not a capital letter, so it cannot hide one. */
  lemma LowerKeepsOthers(a: string, c: char)
    requires !('A' <= c <= 'Z') && c !in Lower(a)
    ensures c !in a
  {
    assert forall i :: 0 <= i < |a| ==> Lower(a)[i] != c;
  }

  lemma DigitsHaveNoSpace(d: string)
    requires AllDigits(d)
    ensures ' ' !in d
  {
    assert forall i :: 0 <= i < |d| ==> d[i] != ' ';
  }

  lemma LowerConcat(a: string, b: string)
    ensures Lower(a + b) == Lower(a) + Lower(b)
  {
  }

  /** Between a common start and ends of equal length, the middles agree. */
  lemma MiddleDetermined(head: string, x: string, t: string, y: string, u: string)
    requires head + x + t == head + y + u && |t| == |u|
    ensures x == y && t == u
  {
    var s := head + x + t;
    assert x == s[|head|..|head| + |x|];
    assert y == s[|head|..|head| + |y|];
    assert t == s[|head| + |x|..];
    assert u == s[|head| + |y|..];
  }

  /** A text made of three parts starts with the first and ends with the last. */
  lemma StartAndEnd(a: string, b: string, c: string)
    ensures (a + b + c)[..|a|] == a
    ensures (a + b + c)[|a + b + c| - |c|..] == c
  {
  }

  lemma SeqAssociative<T>(a: seq<T>, b: seq<T>, c: seq<T>)
    ensures a + (b + c) == a + b + c
  {
  }

  /** Regrouping six consecutive parts into a first one, a middle three and a last two. */
  lemma Regroup(a: string, b: string, c: string, d: string, e: string, f: string)
    ensures a + b + c + d + e + f == a + (b + c + d) + (e + f)
  {
  }

  /** `sep.join(parts)` */
  function Join(parts: seq<string>, sep: char): string
  {
    if |parts| == 0 then ""
    else if |parts| == 1 then parts[0]
    else parts[0] + [sep] + Join(parts[1..], sep)
  }

  lemma JoinTwo(a: string, b: string, sep: char)
    ensures Join([a, b], sep) == a + [sep] + b
  {
    assert [a, b][1..] == [b];
  }

  lemma JoinThree(a: string, b: string, c: string, sep: char)
    ensures Join([a, b, c], sep) == a + [sep] + b + [sep] + c
  {
    assert [a, b, c][1..] == [b, c];
    JoinTwo(b, c, sep);
  }

  lemma JoinTwoThen(a: string, b: string, rest: seq<string>, sep: char)
    requires |rest| >= 1
    ensures Join([a, b] + rest, sep) == a + [sep] + b + [sep] + Join(rest, sep)
  {
    var all := [a, b] + rest;
    assert all[1..] == [b] + rest;
    assert all[1..][1..] == rest;
  }

  /** Each piece followed by the separator, as a loop that appends lines builds it. */
  function Terminated(pieces: seq<string>, sep: char): string
  {
    if pieces == [] then ""
    else Terminated(pieces[..|pieces| - 1], sep) + pieces[|pieces| - 1] + [sep]
  }

  lemma {:induction false} TerminatedJoin(pieces: seq<string>, rest: seq<string>, sep: char)
    requires |rest| >= 1
    ensures Terminated(pieces, sep) + Join(rest, sep) == Join(pieces + rest, sep)
    decreases |pieces|
  {
    if pieces == [] {
      assert pieces + rest == rest;
    } else {
      var init := pieces[..|pieces| - 1];
      var last := pieces[|pieces| - 1];
      var rest' := [last] + rest;
      assert rest'[1..] == rest;
      TerminatedJoin(init, rest', sep);
      assert init + rest' == pieces + rest;
    }
  }

  /**
   * Two lines, then lines built one by one, then a last line and an empty
   * one: the text they make is their join.
   */
  lemma JoinFramed(a: string, b: string, pieces: seq<string>, body: string, c: string, sep: char)
    requires body == Terminated(pieces, sep)
    ensures a + [sep] + b + [sep] + body + c + [sep] == Join([a, b] + pieces + [c, ""], sep)
  {
    var tail := [c, ""];
    JoinTwo(c, "", sep);
    TerminatedJoin(pieces, tail, sep);
    JoinTwoThen(a, b, pieces + tail, sep);
    assert [a, b] + pieces + tail == [a, b] + (pieces + tail);
  }

  /** Where each part of a framed list of lines sits. */
  lemma FramedIndex(a: string, b: string, pieces: seq<string>, c: string)
    ensures var all := [a, b] + pieces + [c, ""];
      && |all| == |pieces| + 4
      && all[0] == a && all[1] == b
      && (forall i :: 0 <= i < |pieces| ==> all[i + 2] == pieces[i])
      && all[|all| - 2] == c && all[|all| - 1] == ""
  {
  }

  /** None of the lines of a framed text holds the separator when none of its parts does. */
  lemma FramedWithoutSeparator(a: string, b: string, pieces: seq<string>, c: string, sep: char)
    requires sep !in a && sep !in b && sep !in c
    requires forall k :: 0 <= k < |pieces| ==> sep !in pieces[k]
    ensures var all := [a, b] + pieces + [c, ""];
      forall k :: 0 <= k < |all| ==> sep !in all[k]
  {
    var all := [a, b] + pieces + [c, ""];
    forall k | 0 <= k < |all| ensures sep !in all[k] {
      if 2 <= k < |all| - 2 {
        assert all[k] == pieces[k - 2];
      }
    }
  }

  /**
   * `s.split(sep)` with an explicit one-character separator: every
   * occurrence cuts, empty pieces are kept, and there is always one more
   * piece than there are separators.
   */
  function Split(s: string, sep: char): (parts: seq<string>)
    ensures |parts| >= 1
    ensures forall k :: 0 <= k < |parts| ==> sep !in parts[k]
    decreases |s|
  {
    if |s| == 0 then [""]
    else
      var rest := Split(s[1..], sep);
      if s[0] == sep then [""] + rest
      else [[s[0]] + rest[0]] + rest[1..]
  }

  /** Every piece of a split is made of characters of the text. */
  lemma {:induction false} SplitPiecesFromText(s: string, sep: char)
    ensures forall k, c :: 0 <= k < |Split(s, sep)| && c in Split(s, sep)[k] ==> c in s
    decreases |s|
  {
    if |s| > 0 {
      SplitPiecesFromText(s[1..], sep);
      var rest := Split(s[1..], sep);
      var parts := Split(s, sep);
      forall k, c | 0 <= k < |parts| && c in parts[k] ensures c in s {
        assert forall x :: x in s[1..] ==> x in s;
        if s[0] == sep {
          assert k >= 1 && parts[k] == rest[k - 1];
        } else if k == 0 {
          assert parts[0] == [s[0]] + rest[0];
        } else {
          assert parts[k] == rest[k];
        }
      }
    }
  }

  lemma {:induction false} SplitWithoutSeparator(a: string, sep: char)
    requires sep !in a
    ensures Split(a, sep) == [a]
    decreases |a|
  {
    if |a| > 0 {
      SplitWithoutSeparator(a[1..], sep);
      assert [a[0]] + a[1..] == a;
    }
  }

  lemma {:induction false} SplitAtFirstSeparator(a: string, b: string, sep: char)
    requires sep !in a
    ensures Split(a + [sep] + b, sep) == [a] + Split(b, sep)
    decreases |a|
  {
    if |a| == 0 {
      assert a + [sep] + b == [sep] + b;
      assert ([sep] + b)[1..] == b;
    } else {
      SplitAtFirstSeparator(a[1..], b, sep);
      assert (a + [sep] + b)[1..] == a[1..] + [sep] + b;
      assert [a[0]] + a[1..] == a;
    }
  }

  /** Splitting undoes joining, as long as no piece holds the separator. */
  lemma {:induction false} SplitJoin(parts: seq<string>, sep: char)
    requires |parts| >= 1
    requires forall k :: 0 <= k < |parts| ==> sep !in parts[k]
    ensures Split(Join(parts, sep), sep) == parts
    decreases |parts|
  {
    if |parts| == 1 {
      SplitWithoutSeparator(parts[0], sep);
    } else {
      SplitJoin(parts[1..], sep);
      SplitAtFirstSeparator(parts[0], Join(parts[1..], sep), sep);
      assert [parts[0]] + parts[1..] == parts;
    }
  }

  /** Joining undoes splitting. */
  lemma {:induction false} JoinSplit(s: string, sep: char)
    ensures Join(Split(s, sep), sep) == s
    decreases |s|
  {
    if |s| > 0 {
      JoinSplit(s[1..], sep);
      var rest := Split(s[1..], sep);
      if s[0] == sep {
        assert ([""] + rest)[1..] == rest;
      } else {
        var parts := [[s[0]] + rest[0]] + rest[1..];
        if |rest| > 1 {
          assert parts[1..] == rest[1..];
          assert Join(rest, sep) == rest[0] + [sep] + Join(rest[1..], sep);
        }
      }
      assert [s[0]] + s[1..] == s;
    }
  }

  predicate IsDigit(c: char)
  {
    '0' <= c <= '9'
  }

  predicate AllDigits(s: string)
  {
    forall i :: 0 <= i < |s| ==> IsDigit(s[i])
  }

  function DigitChar(d: nat): char
    requires d < 10
  {
    ('0' as int + d) as char
  }

  /** The decimal text an f-string gives for a non-negative `int`. */
  function DigitsOf(n: nat): (s: string)
    ensures |s| >= 1 && AllDigits(s)
    ensures |s| > 1 ==> s[0] != '0'
  {
    if n < 10 then [DigitChar(n)] else DigitsOf(n / 10) + [DigitChar(n % 10)]
  }

  function Pow10(k: nat): (p: nat)
    ensures p >= 1
  {
    if k == 0 then 1 else 10 * Pow10(k - 1)
  }

  /**
   * `int(s)` for a string of ASCII decimal digits (leading zeros allowed):
   * a number below 10 to the power of the number of digits.
   */
  function ValueOf(s: string): (v: nat)
    requires AllDigits(s)
    ensures v < Pow10(|s|)
    decreases |s|
  {
    if |s| == 0 then 0
    else ValueOf(s[..|s| - 1]) * 10 + (s[|s| - 1] as int - '0' as int)
  }

  predicate AllZeros(z: string)
  {
    forall i :: 0 <= i < |z| ==> z[i] == '0'
  }

  /** Leading zeros do not change the value read. */
  lemma {:induction false} ValueOfLeadingZeros(z: string, s: string)
    requires AllZeros(z) && AllDigits(s)
    ensures AllDigits(z + s) && ValueOf(z + s) == ValueOf(s)
    decreases |s|
  {
    if s == [] {
      assert z + s == z;
      ValueOfZeros(z);
    } else {
      var init := s[..|s| - 1];
      ValueOfLeadingZeros(z, init);
      assert (z + s)[..|z + s| - 1] == z + init;
      assert (z + s)[|z + s| - 1] == s[|s| - 1];
    }
  }

  lemma {:induction false} ValueOfZeros(z: string)
    requires AllZeros(z)
    ensures AllDigits(z) && ValueOf(z) == 0
    decreases |z|
  {
    if z != [] {
      ValueOfZeros(z[..|z| - 1]);
    }
  }

  /** Parsing the rendered decimal text gives the number back. */
  lemma {:induction false} ValueOfDigitsOf(n: nat)
    ensures ValueOf(DigitsOf(n)) == n
  {
    var s := DigitsOf(n);
    if n >= 10 {
      ValueOfDigitsOf(n / 10);
      assert s[..|s| - 1] == DigitsOf(n / 10);
    }
  }

  /** Rendering a parsed digit string without leading zeros gives it back. */
  lemma {:induction false} DigitsOfValueOf(s: string)
    requires |s| >= 1 && AllDigits(s)
    requires |s| > 1 ==> s[0] != '0'
    ensures DigitsOf(ValueOf(s)) == s
    decreases |s|
  {
    var init := s[..|s| - 1];
    var d := s[|s| - 1] as int - '0' as int;
    if |s| == 1 {
      assert ValueOf(s) == ValueOf(init) * 10 + d;
    } else {
      DigitsOfValueOf(init);
      assert init[0] == s[0];
      ValueOfLowerBound(init);
      assert ValueOf(s) / 10 == ValueOf(init);
      assert ValueOf(s) % 10 == d;
      assert init + [s[|s| - 1]] == s;
    }
  }

  /** A digit string that does not start with zero has a positive value. */
  lemma {:induction false} ValueOfLowerBound(s: string)
    requires |s| >= 1 && AllDigits(s) && s[0] != '0'
    ensures ValueOf(s) >= 1
    decreases |s|
  {
    if |s| > 1 {
      ValueOfLowerBound(s[..|s| - 1]);
    }
  }
}
