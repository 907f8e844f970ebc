/**
 * The Python `str` operations the core relies on, written out over `seq<char>`:
 * `rstrip`, `lstrip` and `strip` with one separator character, one-character
 * `replace`, ASCII `lower`, `str(int)`, zero-padded decimal fields, and the
 * slice `s[:n]`.
 */
module Text {

  /** `s.rstrip(c)`: drop every trailing `c`. */
  function RStrip(s: string, c: char): string
    decreases |s|
  {
    if |s| > 0 && s[|s| - 1] == c then RStrip(s[..|s| - 1], c) else s
  }

  /** What `rstrip` leaves is a prefix that does not end in `c`, and only `c` was dropped. */
  lemma {:induction false} RStripFacts(s: string, c: char)
    ensures var r := RStrip(s, c);
            && |r| <= |s| && r == s[..|r|]
            && (|r| > 0 ==> r[|r| - 1] != c)
            && (forall i :: |r| <= i < |s| ==> s[i] == c)
    decreases |s|
  {
    if |s| > 0 && s[|s| - 1] == c {
      var init := s[..|s| - 1];
      RStripFacts(init, c);
      var r := RStrip(init, c);
      assert r == s[..|r|];
      forall i | |r| <= i < |s| ensures s[i] == c {
        if i < |s| - 1 { assert s[i] == init[i]; }
      }
    }
  }

  /** `s.lstrip(c)`: drop every leading `c`. */
  function LStrip(s: string, c: char): string
    decreases |s|
  {
    if |s| > 0 && s[0] == c then LStrip(s[1..], c) else s
  }

  /** What `lstrip` leaves is a suffix that does not start with `c`, and only `c` was dropped. */
  lemma {:induction false} LStripFacts(s: string, c: char)
    ensures var r := LStrip(s, c);
            && |r| <= |s| && r == s[|s| - |r|..]
            && (|r| > 0 ==> r[0] != c)
            && (forall i :: 0 <= i < |s| - |r| ==> s[i] == c)
    decreases |s|
  {
    if |s| > 0 && s[0] == c {
      var tail := s[1..];
      LStripFacts(tail, c);
      var r := LStrip(tail, c);
      assert r == s[|s| - |r|..];
      forall i | 0 <= i < |s| - |r| ensures s[i] == c {
        if i > 0 { assert s[i] == tail[i - 1]; }
      }
    }
  }

  /** `s.strip(c)`: drop every leading and every trailing `c`. */
  function Strip(s: string, c: char): string
  {
    LStrip(RStrip(s, c), c)
  }

  /**
   * What `strip` leaves neither starts nor ends with `c`; it is one
   * contiguous slice of `s`, and only `c` lies outside it.
   */
  lemma StripFacts(s: string, c: char)
    ensures var r := Strip(s, c);
            var lead := |RStrip(s, c)| - |r|;
            && (|r| > 0 ==> r[0] != c && r[|r| - 1] != c)
            && 0 <= lead && lead + |r| <= |s| && r == s[lead..lead + |r|]
            && (forall i :: 0 <= i < lead ==> s[i] == c)
            && (forall i :: lead + |r| <= i < |s| ==> s[i] == c)
  {
    var right := RStrip(s, c);
    var r := LStrip(right, c);
    RStripFacts(s, c);
    LStripFacts(right, c);
    var lead := |right| - |r|;
    assert r == s[lead..lead + |r|];
    assert forall i :: 0 <= i < lead ==> s[i] == right[i] == c;
    assert |r| > 0 ==> r[|r| - 1] == right[|right| - 1];
  }

  /** A string that neither starts nor ends with `c` is left alone by `strip`. */
  lemma StripUnpadded(s: string, c: char)
    requires |s| > 0 && s[0] != c && s[|s| - 1] != c
    ensures Strip(s, c) == s
  {
  }

  /** `s.replace(a, b)` for single characters: every `a` becomes `b`, nothing else moves. */
  function Replace(s: string, a: char, b: char): (r: string)
    ensures |r| == |s|
    ensures forall i :: 0 <= i < |s| ==> r[i] == (if s[i] == a then b else s[i])
  {
    if s == [] then [] else [if s[0] == a then b else s[0]] + Replace(s[1..], a, b)
  }

  /** Lower-casing of one character (ASCII letters only). */
  function LowerChar(ch: char): char
  {
    if 'A' <= ch <= 'Z' then (ch as int - 'A' as int + 'a' as int) as char else ch
  }

  /** `s.lower()`, folding the ASCII letters. */
  function Lower(s: string): (r: string)
    ensures |r| == |s|
    ensures forall i :: 0 <= i < |s| ==> r[i] == LowerChar(s[i])
  {
    if s == [] then [] else [LowerChar(s[0])] + Lower(s[1..])
  }

  predicate IsDigit(ch: char)
  {
    '0' <= ch <= '9'
  }

  predicate AllDigits(s: string)
  {
    forall i :: 0 <= i < |s| ==> IsDigit(s[i])
  }

  function DigitChar(d: nat): (ch: char)
    requires d < 10
    ensures IsDigit(ch)
  {
    ('0' as int + d) as char
  }

  function DigitValue(ch: char): nat
    requires IsDigit(ch)
  {
    ch as int - '0' as int
  }

  /** The value of a string of decimal digits, read most significant first. */
  function ParseDigits(s: string): nat
    requires AllDigits(s)
  {
    if s == [] then 0 else ParseDigits(s[..|s| - 1]) * 10 + DigitValue(s[|s| - 1])
  }

  /** `str(n)` for a natural number: decimal digits without leading zeros. */
  function NatToString(n: nat): (r: string)
    ensures |r| >= 1 && AllDigits(r)
    ensures |r| > 1 ==> r[0] != '0'
  {
    if n < 10 then [DigitChar(n)] else NatToString(n / 10) + [DigitChar(n % 10)]
  }

  /** Reading back `str(n)` gives `n`. */
  lemma {:induction false} NatToStringRoundTrip(n: nat)
    ensures ParseDigits(NatToString(n)) == n
  {
    if n >= 10 {
      var s := NatToString(n);
      assert s[..|s| - 1] == NatToString(n / 10);
      NatToStringRoundTrip(n / 10);
    }
  }

  /** Different numbers print differently. */
  lemma NatToStringInjective(m: nat, n: nat)
    requires m != n
    ensures NatToString(m) != NatToString(n)
  {
    NatToStringRoundTrip(m);
    NatToStringRoundTrip(n);
  }

  /** `str(i)` for any integer: a minus sign before the digits of a negative number. */
  function IntToString(i: int): (r: string)
    ensures i >= 0 ==> r == NatToString(i)
    ensures i < 0 ==> r == "-" + NatToString(-i)
  {
    if i < 0 then "-" + NatToString(-i) else NatToString(i)
  }

  /** An optional minus sign, then digits. */
  predicate IntText(s: string)
  {
    AllDigits(s) || (s != [] && s[0] == '-' && AllDigits(s[1..]))
  }

  /** `int(s)` on such a text. */
  function ParseInt(s: string): int
    requires IntText(s)
  {
    if s != [] && s[0] == '-' then -(ParseDigits(s[1..]) as int) else ParseDigits(s)
  }

  /** Reading back `str(i)` gives `i`, negative numbers included. */
  lemma IntToStringRoundTrip(i: int)
    ensures IntText(IntToString(i)) && ParseInt(IntToString(i)) == i
  {
    if i < 0 {
      NatToStringRoundTrip(-i);
      assert IntToString(i)[1..] == NatToString(-i);
    } else {
      NatToStringRoundTrip(i);
    }
  }

  /** Different integers have different decimal texts. */
  lemma IntToStringInjective(i: int, j: int)
    requires i != j
    ensures IntToString(i) != IntToString(j)
  {
    IntToStringRoundTrip(i);
    IntToStringRoundTrip(j);
  }

  function Pow10(w: nat): (p: nat)
    ensures p >= 1
  {
    if w == 0 then 1 else 10 * Pow10(w - 1)
  }

  /** The last `w` decimal digits of `n`, zero-padded (`%0wd` for a value that fits). */
  function Padded(n: nat, w: nat): (r: string)
    ensures |r| == w && AllDigits(r)
  {
    if w == 0 then [] else Padded(n / 10, w - 1) + [DigitChar(n % 10)]
  }

  /** Reading back a zero-padded field gives the number, when it fits the width. */
  lemma {:induction false} PaddedRoundTrip(n: nat, w: nat)
    requires n < Pow10(w)
    ensures ParseDigits(Padded(n, w)) == n
  {
    if w > 0 {
      var s := Padded(n, w);
      assert s[..|s| - 1] == Padded(n / 10, w - 1);
      PaddedRoundTrip(n / 10, w - 1);
    }
  }

  /** Python's slice `s[:n]` for `n >= 0`: the first `n` elements, or all of a shorter `s`. */
  function Min(a: int, b: int): int
  {
    if a <= b then a else b
  }

  function Take<T>(s: seq<T>, n: nat): (r: seq<T>)
    ensures |r| == Min(|s|, n)
    ensures r == s[..|r|]
  {
    if |s| <= n then s else s[..n]
  }
}
