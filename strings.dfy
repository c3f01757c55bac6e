/**
 * The JavaScript string operations the bounty board uses: `split('\n')`,
 * `join('\n')`, `includes`, `toLowerCase`, case-insensitive literal matching
 * as a `/i` regular expression does it, and number-to-decimal conversion
 * inside template literals.
 */
module JsStrings {

  // ---------------------------------------------------------------------
  // split('\n') and join('\n')

  /** `s.split('\n')`: the pieces between line feeds; never empty, and `""` splits into `[""]`. */
  function SplitLines(s: string): (r: seq<string>)
    ensures |r| >= 1
    ensures forall i :: 0 <= i < |r| ==> '\n' !in r[i]
    decreases |s|
  {
    if |s| == 0 then [""]
    else
      var rest := SplitLines(s[1..]);
      if s[0] == '\n' then [""] + rest else [[s[0]] + rest[0]] + rest[1..]
  }

  /** `parts.join('\n')`. */
  function JoinLines(parts: seq<string>): string
  {
    if |parts| == 0 then ""
    else if |parts| == 1 then parts[0]
    else parts[0] + "\n" + JoinLines(parts[1..])
  }

  /** Joining the pieces of a split gives the original text back. */
  lemma {:induction false} SplitThenJoin(s: string)
    ensures JoinLines(SplitLines(s)) == s
    decreases |s|
  {
    if |s| > 0 {
      var rest := SplitLines(s[1..]);
      SplitThenJoin(s[1..]);
      if s[0] == '\n' {
        assert SplitLines(s) == [""] + rest;
        assert ([""] + rest)[1..] == rest;
        assert s == "" + "\n" + s[1..];
      } else {
        var r := SplitLines(s);
        assert r == [[s[0]] + rest[0]] + rest[1..];
        if |rest| == 1 {
          assert s == [s[0]] + s[1..];
        } else {
          assert r[1..] == rest[1..];
          assert JoinLines(rest) == rest[0] + "\n" + JoinLines(rest[1..]);
          assert s == [s[0]] + s[1..];
        }
      }
    }
  }

  lemma {:induction false} SplitWithoutNewline(a: string)
    requires '\n' !in a
    ensures SplitLines(a) == [a]
    decreases |a|
  {
    if |a| > 0 {
      SplitWithoutNewline(a[1..]);
      assert a == [a[0]] + a[1..];
    }
  }

  lemma {:induction false} SplitAtNewline(a: string, b: string)
    requires '\n' !in a
    ensures SplitLines(a + "\n" + b) == [a] + SplitLines(b)
    decreases |a|
  {
    var s := a + "\n" + b;
    if |a| == 0 {
      assert s[1..] == b;
    } else {
      assert s[1..] == a[1..] + "\n" + b;
      SplitAtNewline(a[1..], b);
      assert a == [a[0]] + a[1..];
    }
  }

  /** Splitting a join of line-feed-free pieces gives the pieces back. */
  lemma {:induction false} JoinThenSplit(parts: seq<string>)
    requires |parts| >= 1
    requires forall i :: 0 <= i < |parts| ==> '\n' !in parts[i]
    ensures SplitLines(JoinLines(parts)) == parts
  {
    if |parts| == 1 {
      SplitWithoutNewline(parts[0]);
    } else {
      JoinThenSplit(parts[1..]);
      SplitAtNewline(parts[0], JoinLines(parts[1..]));
      assert parts == [parts[0]] + parts[1..];
    }
  }

  /** The first piece of a split is the text up to the first line feed, or all of it. */
  lemma {:induction false} FirstLine(s: string)
    ensures |SplitLines(s)[0]| <= |s|
    ensures SplitLines(s)[0] == s[..|SplitLines(s)[0]|]
    ensures |SplitLines(s)[0]| == |s| || s[|SplitLines(s)[0]|] == '\n'
    decreases |s|
  {
    if |s| > 0 && s[0] != '\n' {
      FirstLine(s[1..]);
    }
  }

  // ---------------------------------------------------------------------
  // includes, case

  /** `sub` occurs in `s` starting at index `i`. */
  predicate OccursAt(s: string, sub: string, i: int) {
    0 <= i <= |s| - |sub| && s[i..i + |sub|] == sub
  }

  /** `s.includes(sub)`. */
  predicate Includes(s: string, sub: string) {
    exists i :: 0 <= i <= |s| - |sub| && OccursAt(s, sub, i)
  }

  /** A text includes every piece it is built around. */
  lemma IncludesInfix(a: string, sub: string, b: string)
    ensures Includes(a + sub + b, sub)
  {
    var s := a + sub + b;
    assert s[|a|..|a| + |sub|] == sub;
    assert OccursAt(s, sub, |a|);
  }

  /** A join of three or more pieces includes whatever its second piece starts with. */
  lemma JoinIncludesSecond(parts: seq<string>, sub: string, tail: string)
    requires |parts| >= 3 && parts[1] == sub + tail
    ensures Includes(JoinLines(parts), sub)
  {
    var rest := JoinLines(parts[2..]);
    assert parts[1..][1..] == parts[2..];
    assert JoinLines(parts[1..]) == parts[1] + "\n" + rest;
    assert JoinLines(parts) == (parts[0] + "\n") + sub + (tail + "\n" + rest);
    IncludesInfix(parts[0] + "\n", sub, tail + "\n" + rest);
  }

  /** `toLowerCase` on one character, for the ASCII letters. */
  function LowerChar(c: char): char {
    if 'A' <= c <= 'Z' then (c as int + 32) as char else c
  }

  /** `s.toLowerCase()` restricted to ASCII letters. */
  function ToLower(s: string): (r: string)
    ensures |r| == |s|
  {
    seq(|s|, i requires 0 <= i < |s| => LowerChar(s[i]))
  }

  /**
   * `s` equals the lower-case literal `word` under a `/i` regular expression
   * without the `u` flag: only ASCII letters are folded, since a non-ASCII
   * character never matches an ASCII one under that flag.
   */
  predicate EqualsIgnoreCase(s: string, word: string) {
    |s| == |word| && forall i :: 0 <= i < |s| ==> LowerChar(s[i]) == word[i]
  }

  // ---------------------------------------------------------------------
  // numbers in template literals

  function DigitChar(d: nat): char
    requires d < 10
  {
    ('0' as int + d) as char
  }

  predicate IsDigit(c: char) {
    '0' <= c <= '9'
  }

  /** The decimal text of `n`, as `${n}` writes it. */
  function NatToString(n: nat): (r: string)
    ensures |r| >= 1
    ensures forall i :: 0 <= i < |r| ==> IsDigit(r[i])
  {
    if n < 10 then [DigitChar(n)] else NatToString(n / 10) + [DigitChar(n % 10)]
  }

  /** The number a string of decimal digits denotes, most significant digit first. */
  function DigitsValue(s: string): nat
  {
    if |s| == 0 then 0
    else
      var d := s[|s| - 1] as int - '0' as int;
      DigitsValue(s[..|s| - 1]) * 10 + (if 0 <= d then d else 0)
  }

  /** `${n}` denotes `n`, and has no leading zero unless it is `0` itself. */
  lemma {:induction false} NatToStringValue(n: nat)
    ensures DigitsValue(NatToString(n)) == n
    ensures n > 0 ==> NatToString(n)[0] != '0'
  {
    if n >= 10 {
      NatToStringValue(n / 10);
      var r := NatToString(n);
      assert r[..|r| - 1] == NatToString(n / 10);
    }
  }

  /** Distinct numbers are written differently. */
  lemma NatToStringInjective(m: nat, n: nat)
    requires NatToString(m) == NatToString(n)
    ensures m == n
  {
    NatToStringValue(m);
    NatToStringValue(n);
  }
}
