/**
 * Unsigned decimal text, as a wide output stream writes an unsigned integer:
 * no sign, no padding, no leading zero.
 */
module Decimal {
  import opened Wrappers

  predicate IsDigit(c: char)
  {
    '0' <= c <= '9'
  }

  predicate AllDigits(s: string)
  {
    forall i :: 0 <= i < |s| ==> IsDigit(s[i])
  }

  function DigitChar(d: nat): (c: char)
    requires d < 10
    ensures IsDigit(c)
    ensures c == '0' <==> d == 0
  {
    ('0' as int + d) as char
  }

  function DigitValue(c: char): (d: nat)
    requires IsDigit(c)
    ensures d < 10
    ensures DigitChar(d) == c
  {
    c as int - '0' as int
  }

  /** The decimal text of `n`. */
  function Text(n: nat): (s: string)
    ensures |s| >= 1 && AllDigits(s)
    ensures s[0] == '0' <==> n == 0
    decreases n
  {
    if n < 10 then [DigitChar(n)] else Text(n / 10) + [DigitChar(n % 10)]
  }

  /** The number a string of digits denotes, the reference reading of `Text`. */
  function Value(s: string): nat
    requires AllDigits(s)
    decreases |s|
  {
    if s == [] then 0 else Value(s[..|s| - 1]) * 10 + DigitValue(s[|s| - 1])
  }

  /** Reading back the text of `n` gives `n`. */
  lemma {:induction false} ValueOfText(n: nat)
    ensures Value(Text(n)) == n
    decreases n
  {
    if n >= 10 {
      var s := Text(n);
      assert s[..|s| - 1] == Text(n / 10);
      ValueOfText(n / 10);
      assert DigitValue(s[|s| - 1]) == n % 10;
    }
  }

  /** The text of a number determines the number. */
  lemma TextInjective(m: nat, n: nat)
    requires Text(m) == Text(n)
    ensures m == n
  {
    ValueOfText(m);
    ValueOfText(n);
  }

  /** The end of the run of digits that starts at `i` in `t`. */
  function DigitRun(t: string, i: nat): (k: nat)
    requires i <= |t|
    ensures i <= k <= |t|
    ensures forall j :: i <= j < k ==> IsDigit(t[j])
    ensures k < |t| ==> !IsDigit(t[k])
    decreases |t| - i
  {
    if i < |t| && IsDigit(t[i]) then DigitRun(t, i + 1) else i
  }

  /**
   * Reads the number whose digits start at `i` in `t`: its value and the
   * index just past its last digit, or `None` when no digit is there.
   */
  function ReadNumber(t: string, i: nat): (r: Option<(nat, nat)>)
    requires i <= |t|
    ensures r.Some? ==> i < r.value.1 <= |t|
  {
    var k := DigitRun(t, i);
    if k == i then None
    else
      assert AllDigits(t[i..k]) by {
        forall j | 0 <= j < k - i ensures IsDigit(t[i..k][j]) {
          assert t[i..k][j] == t[i + j];
        }
      }
      Some((Value(t[i..k]), k))
  }

  /** The text of `n`, written at `|before|` and followed by no digit, reads back as `n`. */
  lemma ReadNumberOfText(before: string, n: nat, after: string)
    requires after == [] || !IsDigit(after[0])
    ensures var t := before + Text(n) + after;
      ReadNumber(t, |before|) == Some((n, |before| + |Text(n)|))
  {
    var d := Text(n);
    var t := before + d + after;
    var k := |before| + |d|;
    forall j | |before| <= j < k ensures IsDigit(t[j]) {
      assert t[j] == d[j - |before|];
    }
    assert k < |t| ==> t[k] == after[0];
    // The run of digits from |before| ends exactly at k, as DigitRun's contract leaves no other end.
    assert t[|before|..k] == d;
    ValueOfText(n);
  }
}
