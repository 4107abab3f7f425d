/**
 * The handful of string operations the front end and the back end rely on:
 * lower-casing (`toLowerCase()` / `str.lower()`), whitespace trimming
 * (`trim()` / `str.strip()`), substring tests (`includes` / `in`) and
 * splitting on a separator (`str.split(sep)`).
 */
module Text {

  /** The whitespace characters both `trim()` and `str.strip()` remove. */
  predicate IsSpace(c: char)
  {
    c == ' ' || c == '\t' || c == '\n' || c == '\r' || c == '\U{000B}' || c == '\U{000C}' || c == '\U{00A0}'
  }

  /** Lower case of one character, for ASCII and the Latin-1 capitals (Å, Ä, Ö, É, ...). */
  function LowerChar(c: char): char
  {
    if 'A' <= c <= 'Z' || ('\U{00C0}' <= c <= '\U{00DE}' && c != '\U{00D7}') then (c as int + 32) as char else c
  }

  function Lower(s: string): string
  {
    seq(|s|, i requires 0 <= i < |s| => LowerChar(s[i]))
  }

  /** Lower-casing twice changes nothing more than lower-casing once. */
  lemma LowerIdempotent(s: string)
    ensures Lower(Lower(s)) == Lower(s)
  {
  }

  /** A string without capitals is its own lower case. */
  lemma LowerOfLowercase(s: string)
    requires forall i | 0 <= i < |s| :: !('A' <= s[i] <= 'Z') && !('\U{00C0}' <= s[i] <= '\U{00DE}')
    ensures Lower(s) == s
  {
  }

  /** A word with one leading ASCII capital lower-cases to the same word with a small first letter. */
  lemma LowerOfCapitalised(w: string)
    requires |w| > 0 && 'A' <= w[0] <= 'Z'
    requires forall i | 1 <= i < |w| :: !('A' <= w[i] <= 'Z') && !('\U{00C0}' <= w[i] <= '\U{00DE}')
    ensures Lower(w) == [(w[0] as int + 32) as char] + w[1..]
  {
  }

  /** `sub in s` (Python) and `s.includes(sub)` (JavaScript): `sub` occurs at some offset of `s`. */
  predicate Contains(s: string, sub: string)
  {
    sub <= s || (|s| > 0 && Contains(s[1..], sub))
  }

  /** An occurrence at offset `i` makes `Contains` true. */
  lemma {:induction false} ContainsAt(s: string, sub: string, i: nat)
    requires i + |sub| <= |s| && s[i..i + |sub|] == sub
    ensures Contains(s, sub)
  {
    if i > 0 {
      assert s[1..][i - 1..i - 1 + |sub|] == sub;
      ContainsAt(s[1..], sub, i - 1);
    }
  }

  /** Every occurrence `Contains` reports has an offset. */
  lemma {:induction false} ContainsHasOffset(s: string, sub: string) returns (i: nat)
    requires Contains(s, sub)
    ensures i + |sub| <= |s| && s[i..i + |sub|] == sub
  {
    if sub <= s {
      i := 0;
    } else {
      var j := ContainsHasOffset(s[1..], sub);
      i := j + 1;
      assert s[i..i + |sub|] == s[1..][j..j + |sub|];
    }
  }

  /** A needle with a character the haystack lacks does not occur in it. */
  lemma {:induction false} MissingCharNotContained(s: string, sub: string, c: char)
    requires c in sub && c !in s
    ensures !Contains(s, sub)
  {
    if |s| > 0 {
      assert c !in s[1..];
      MissingCharNotContained(s[1..], sub, c);
    }
  }

  /** A string containing `a + b` contains `a`. */
  lemma {:induction false} ContainsPrefixOfNeedle(s: string, a: string, b: string)
    requires Contains(s, a + b)
    ensures Contains(s, a)
  {
    var i := ContainsHasOffset(s, a + b);
    assert s[i..i + |a|] == (a + b)[..|a|];
    ContainsAt(s, a, i);
  }

  function TrimLeft(s: string): (r: string)
    ensures |r| <= |s| && r == s[|s| - |r|..] && (r == [] || !IsSpace(r[0]))
    ensures forall i | 0 <= i < |s| - |r| :: IsSpace(s[i])
  {
    if s != [] && IsSpace(s[0]) then TrimLeft(s[1..]) else s
  }

  function TrimRight(s: string): (r: string)
    ensures |r| <= |s| && r == s[..|r|] && (r == [] || !IsSpace(r[|r| - 1]))
    ensures forall i | |r| <= i < |s| :: IsSpace(s[i])
  {
    if s != [] && IsSpace(s[|s| - 1]) then TrimRight(s[..|s| - 1]) else s
  }

  /** `trim()` / `str.strip()`: both ends lose their whitespace. */
  function Strip(s: string): string
  {
    TrimRight(TrimLeft(s))
  }

  /** A string strips to nothing exactly when it is all whitespace. */
  lemma StripEmptyIffBlank(s: string)
    ensures Strip(s) == [] <==> forall i | 0 <= i < |s| :: IsSpace(s[i])
  {
    var l := TrimLeft(s);
    if Strip(s) == [] {
      assert l == [];
    } else {
      assert l != [] && !IsSpace(l[0]) && l[0] == s[|s| - |l|];
      assert !IsSpace(s[|s| - |l|]);
    }
  }

  /** Neither end is whitespace. */
  predicate Trimmed(s: string)
  {
    s == [] || (!IsSpace(s[0]) && !IsSpace(s[|s| - 1]))
  }

  /** Stripping leaves a trimmed string as it is. */
  lemma StripOfTrimmed(s: string)
    requires Trimmed(s)
    ensures Strip(s) == s
  {
    assert TrimLeft(s) == s;
  }

  /** A stripped string is trimmed and made of characters of the original. */
  lemma StripShape(s: string)
    ensures Trimmed(Strip(s))
    ensures forall c | c in Strip(s) :: c in s
  {
    var l := TrimLeft(s);
    var r := TrimRight(l);
    if r != [] {
      assert r[0] == l[0];
    }
    assert forall c | c in r :: c in l;
  }

  /** `pieces` joined back together with `sep` between neighbours (the inverse of `Split`). */
  function Join(pieces: seq<string>, sep: char): string
  {
    if |pieces| <= 1 then (if pieces == [] then [] else pieces[0])
    else pieces[0] + [sep] + Join(pieces[1..], sep)
  }

  /** Each piece's characters occur in the joined string. */
  lemma {:induction false} PieceCharsInJoin(pieces: seq<string>, sep: char, i: nat)
    requires i < |pieces|
    ensures forall c | c in pieces[i] :: c in Join(pieces, sep)
  {
    if |pieces| > 1 {
      var rest := Join(pieces[1..], sep);
      assert Join(pieces, sep) == pieces[0] + [sep] + rest;
      if i > 0 {
        PieceCharsInJoin(pieces[1..], sep, i - 1);
      }
    }
  }

  /**
   * Python's `s.split(sep)` with a one-character separator: the maximal runs
   * between separators, including empty ones; `"".split(",")` is `[""]`.
   */
  function Split(s: string, sep: char): (r: seq<string>)
    ensures |r| >= 1
    ensures forall k | 0 <= k < |r| :: sep !in r[k]
    ensures Join(r, sep) == s
  {
    if s == [] then [[]]
    else if s[0] == sep then [[]] + Split(s[1..], sep)
    else
      var rest := Split(s[1..], sep);
      [[s[0]] + rest[0]] + rest[1..]
  }

  /** The number of separators decides the number of pieces. */
  lemma {:induction false} SplitCount(s: string, sep: char)
    ensures |Split(s, sep)| == multiset(s)[sep] + 1
  {
    if s != [] {
      SplitCount(s[1..], sep);
      assert s == [s[0]] + s[1..];
    }
  }

  /** The decimal digit character of `d`. */
  function Digit(d: nat): (c: char)
    requires d < 10
    ensures '0' <= c <= '9'
  {
    "0123456789"[d]
  }

  /** Python's `str` of a non-negative integer: decimal digits, no leading zero. */
  function NatToString(n: nat): (s: string)
    ensures s != [] && (s[0] == '0' ==> n == 0)
    ensures forall i | 0 <= i < |s| :: '0' <= s[i] <= '9'
  {
    if n < 10 then [Digit(n)] else NatToString(n / 10) + [Digit(n % 10)]
  }

  /** Python's `str` of an integer: a minus sign before the digits of a negative one. */
  function IntToString(n: int): (s: string)
    ensures s != [] && (s[0] == '-' <==> n < 0)
  {
    if n < 0 then "-" + NatToString(-n) else NatToString(n)
  }

  /** The value of a string of decimal digits. */
  function DigitsValue(s: string): nat
    requires forall i | 0 <= i < |s| :: '0' <= s[i] <= '9'
  {
    if s == [] then 0 else DigitsValue(s[..|s| - 1]) * 10 + (s[|s| - 1] as int - '0' as int)
  }

  /** Reading an integer back from its text. */
  function ParseInt(s: string): int
    requires s != [] && s[0] == '-' ==> forall i | 1 <= i < |s| :: '0' <= s[i] <= '9'
    requires s != [] && s[0] != '-' ==> forall i | 0 <= i < |s| :: '0' <= s[i] <= '9'
  {
    if s != [] && s[0] == '-' then -(DigitsValue(s[1..]) as int) else DigitsValue(s)
  }

  /** Digits read back to the number they were written from. */
  lemma {:induction false} NatToStringRoundTrip(n: nat)
    ensures DigitsValue(NatToString(n)) == n
  {
    if n < 10 {
      DigitValue(n);
      assert NatToString(n) == [Digit(n)];
    } else {
      NatToStringRoundTrip(n / 10);
      DigitValue(n % 10);
      var front := NatToString(n / 10);
      var s := front + [Digit(n % 10)];
      assert NatToString(n) == s;
      assert s[..|s| - 1] == front && s[|s| - 1] == Digit(n % 10);
    }
  }

  /** A digit character reads back to its digit. */
  lemma DigitValue(d: nat)
    requires d < 10
    ensures Digit(d) as int - '0' as int == d
  {
  }

  /** The text of an integer reads back to that integer. */
  lemma {:induction false} IntToStringRoundTrip(n: int)
    ensures ParseInt(IntToString(n)) == n
  {
    if n < 0 {
      NegativeRoundTrip(n);
    } else {
      NonNegativeRoundTrip(n);
    }
  }

  /** A minus sign and the digits of the magnitude read back to a negative number. */
  lemma {:induction false} NegativeRoundTrip(n: int)
    requires n < 0
    ensures ParseInt(IntToString(n)) == n
  {
    var m: nat := -n;
    var digits := NatToString(m);
    NatToStringRoundTrip(m);
    var s := ['-'] + digits;
    assert IntToString(n) == s;
    assert s[0] == '-' && s[1..] == digits;
    assert ParseInt(s) == -(m as int);
  }

  /** The digits of a non-negative number read back to it. */
  lemma {:induction false} NonNegativeRoundTrip(n: int)
    requires n >= 0
    ensures ParseInt(IntToString(n)) == n
  {
    var digits := NatToString(n);
    NatToStringRoundTrip(n);
    assert IntToString(n) == digits && digits[0] != '-';
    assert ParseInt(digits) == DigitsValue(digits);
  }
}
