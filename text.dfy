/**
 * Character classes, decimal values and line splitting shared by the puzzles.
 * Text is ASCII: a `string` is a sequence of one-byte characters, so Rust's
 * byte lengths and character indices coincide.
 */
module Text {

  /** Rust's `char::to_digit(10)` succeeds exactly on these characters. */
  predicate IsDigit(c: char) {
    '0' <= c <= '9'
  }

  /** The value `to_digit(10)` gives a decimal digit character. */
  function DigitOf(c: char): (d: nat)
    requires IsDigit(c)
    ensures d <= 9
  {
    c as int - '0' as int
  }

  predicate AllDigits(s: string) {
    forall i :: 0 <= i < |s| ==> IsDigit(s[i])
  }

  function Pow10(k: nat): (p: nat)
    ensures p >= 1
  {
    if k == 0 then 1 else 10 * Pow10(k - 1)
  }

  lemma {:induction false} Pow10Grows(j: nat, k: nat)
    requires j < k
    ensures Pow10(j) < Pow10(k)
    decreases k
  {
    if j + 1 < k {
      Pow10Grows(j, k - 1);
    }
  }

  /**
   * The number the digits s[i..j] denote, read left to right as
   * `value * 10 + digit` for each further digit (Rust's `str::parse`).
   */
  function ValueBetween(s: string, i: nat, j: nat): nat
    requires i <= j <= |s|
    requires forall k :: i <= k < j ==> IsDigit(s[k])
    decreases j
  {
    if j == i then 0 else ValueBetween(s, i, j - 1) * 10 + DigitOf(s[j - 1])
  }

  /** The number a run of decimal digits denotes. */
  function DecimalValue(s: string): nat
    requires AllDigits(s)
  {
    ValueBetween(s, 0, |s|)
  }

  /** The value depends only on the digits, not on where they sit. */
  lemma {:induction false} ValueBetweenSame(s: string, i: nat, t: string, i2: nat, n: nat)
    requires i + n <= |s| && i2 + n <= |t|
    requires s[i..i + n] == t[i2..i2 + n]
    requires forall k :: i <= k < i + n ==> IsDigit(s[k])
    ensures forall k :: i2 <= k < i2 + n ==> IsDigit(t[k])
    ensures ValueBetween(s, i, i + n) == ValueBetween(t, i2, i2 + n)
  {
    forall k | i2 <= k < i2 + n
      ensures t[k] == s[i + (k - i2)]
    {
      assert t[k] == t[i2..i2 + n][k - i2];
      assert s[i + (k - i2)] == s[i..i + n][k - i2];
    }
    if n > 0 {
      assert s[i..i + n][..n - 1] == s[i..i + (n - 1)];
      assert t[i2..i2 + n][..n - 1] == t[i2..i2 + (n - 1)];
      ValueBetweenSame(s, i, t, i2, n - 1);
      assert t[i2 + (n - 1)] == s[i + (n - 1)];
    }
  }

  /** The value of a slice is the value of the digits between its bounds. */
  lemma DecimalValueSlice(s: string, i: nat, j: nat)
    requires i <= j <= |s|
    requires forall k :: i <= k < j ==> IsDigit(s[k])
    ensures AllDigits(s[i..j])
    ensures DecimalValue(s[i..j]) == ValueBetween(s, i, j)
  {
    assert s[i..j][0..j - i] == s[i..j];
    ValueBetweenSame(s, i, s[i..j], 0, j - i);
  }

  /** Appending one digit multiplies the value read so far by ten and adds the digit. */
  lemma DecimalValueSnoc(s: string, c: char)
    requires AllDigits(s) && IsDigit(c)
    ensures AllDigits(s + [c])
    ensures DecimalValue(s + [c]) == DecimalValue(s) * 10 + DigitOf(c)
  {
    assert (s + [c])[0..|s|] == s[0..|s|];
    ValueBetweenSame(s + [c], 0, s, 0, |s|);
  }

  /** k digits denote a number below 10^k. */
  lemma {:induction false} ValueBetweenBound(s: string, i: nat, j: nat)
    requires i <= j <= |s|
    requires forall k :: i <= k < j ==> IsDigit(s[k])
    ensures ValueBetween(s, i, j) < Pow10(j - i)
    decreases j
  {
    if j > i {
      ValueBetweenBound(s, i, j - 1);
    }
  }

  /** A run of k digits denotes a number below 10^k. */
  lemma DecimalValueBound(s: string)
    requires AllDigits(s)
    ensures DecimalValue(s) < Pow10(|s|)
  {
    ValueBetweenBound(s, 0, |s|);
  }

  /** Splitting a run: the first part is shifted by the second part's length. */
  lemma {:induction false} ValueBetweenSplit(s: string, i: nat, j: nat, k: nat)
    requires i <= j <= k <= |s|
    requires forall m :: i <= m < k ==> IsDigit(s[m])
    ensures ValueBetween(s, i, k) == ValueBetween(s, i, j) * Pow10(k - j) + ValueBetween(s, j, k)
    decreases k
  {
    if k > j {
      ValueBetweenSplit(s, i, j, k - 1);
      var x, y, p, d := ValueBetween(s, i, j), ValueBetween(s, j, k - 1), Pow10(k - 1 - j), DigitOf(s[k - 1]);
      assert ValueBetween(s, i, k) == (x * p + y) * 10 + d;
      assert ValueBetween(s, j, k) == y * 10 + d;
      assert Pow10(k - j) == 10 * p;
      MulShift(x, p, y, d);
    }
  }

  /** Reading the concatenation of two runs: the first run is shifted by the second's length. */
  lemma DecimalValueAppend(a: string, b: string)
    requires AllDigits(a) && AllDigits(b)
    ensures AllDigits(a + b)
    ensures DecimalValue(a + b) == DecimalValue(a) * Pow10(|b|) + DecimalValue(b)
  {
    var s := a + b;
    assert AllDigits(s) by {
      forall k | 0 <= k < |s| ensures IsDigit(s[k]) {
        if k < |a| { assert s[k] == a[k]; } else { assert s[k] == b[k - |a|]; }
      }
    }
    ValueBetweenSplit(s, 0, |a|, |s|);
    ConcatParts(a, b);
  }

  lemma ConcatParts(a: string, b: string)
    requires AllDigits(a) && AllDigits(b) && AllDigits(a + b)
    ensures ValueBetween(a + b, 0, |a|) == DecimalValue(a)
    ensures ValueBetween(a + b, |a|, |a + b|) == DecimalValue(b)
  {
    var s := a + b;
    assert s[0..|a|] == a[0..|a|];
    ValueBetweenSame(s, 0, a, 0, |a|);
    assert s[|a|..|a| + |b|] == b[0..|b|];
    ValueBetweenSame(s, |a|, b, 0, |b|);
  }

  lemma MulShift(x: nat, p: nat, y: nat, d: nat)
    ensures (x * p + y) * 10 + d == x * (10 * p) + (y * 10 + d)
  {
  }

  /**
   * Rust's `checked_ilog10().unwrap_or_default() + 1`: the number of decimal
   * digits of v, where zero (whose logarithm is undefined) has one digit.
   */
  function DigitCount(v: nat): (d: nat)
    ensures 1 <= d
    ensures v < Pow10(d)
    ensures v == 0 || Pow10(d - 1) <= v
    ensures v == 0 ==> d == 1
    decreases v
  {
    if v < 10 then 1 else DigitCount(v / 10) + 1
  }

  /** The digit count is the unique k with 10^(k-1) <= v < 10^k (for v > 0). */
  lemma DigitCountUnique(v: nat, k: nat)
    requires 1 <= k
    requires Pow10(k - 1) <= v < Pow10(k)
    ensures DigitCount(v) == k
  {
    var d := DigitCount(v);
    if d < k {
      if d <= k - 1 - 1 { Pow10Grows(d, k - 1); }
    } else if d > k {
      if k < d - 1 { Pow10Grows(k, d - 1); }
    }
  }

  /**
   * A run of digits has at least as many characters as its value has digits,
   * and exactly as many when it has no leading zero.
   */
  lemma RunDigitCount(s: string)
    requires AllDigits(s) && |s| >= 1
    ensures DigitCount(DecimalValue(s)) <= |s|
    ensures s[0] != '0' ==> DigitCount(DecimalValue(s)) == |s|
  {
    var v := DecimalValue(s);
    DecimalValueBound(s);
    var d := DigitCount(v);
    if d > |s| {
      if |s| < d - 1 { Pow10Grows(|s|, d - 1); }
    }
    if s[0] != '0' {
      LeadingDigitBound(s);
      DigitCountUnique(v, |s|);
    }
  }

  /** A run that starts with a non-zero digit denotes at least 10^(k-1). */
  lemma LeadingDigitBound(s: string)
    requires AllDigits(s) && |s| >= 1 && s[0] != '0'
    ensures Pow10(|s| - 1) <= DecimalValue(s)
  {
    ValueBetweenSplit(s, 0, 1, |s|);
    assert ValueBetween(s, 0, 1) == DigitOf(s[0]);
    MulAtLeast(ValueBetween(s, 0, 1), Pow10(|s| - 1));
  }

  lemma MulAtLeast(x: nat, p: nat)
    requires x >= 1
    ensures x * p >= p
  {
  }

  /** The index of the first newline in s, or |s| when there is none. */
  function NewlineIndex(s: string): (i: nat)
    ensures i <= |s|
    ensures i < |s| ==> s[i] == '\n'
    ensures forall k :: 0 <= k < i ==> s[k] != '\n'
    decreases |s|
  {
    if s == [] then 0
    else if s[0] == '\n' then 0
    else NewlineIndex(s[1..]) + 1
  }

  /** Drops one carriage return at the end of a newline-terminated line. */
  function StripCarriageReturn(line: string): string {
    if |line| > 0 && line[|line| - 1] == '\r' then line[..|line| - 1] else line
  }

  /**
   * Rust's `str::lines`: pieces between newlines, a `\r` just before a newline
   * removed, and a final piece without a newline kept only if non-empty.
   */
  function Lines(s: string): (ls: seq<string>)
    ensures forall i :: 0 <= i < |ls| ==> '\n' !in ls[i]
    decreases |s|
  {
    if s == [] then []
    else
      var i := NewlineIndex(s);
      if i == |s| then [s]
      else [StripCarriageReturn(s[..i])] + Lines(s[i + 1..])
  }

  /** The text whose lines are `ls`: each line followed by a newline. */
  function JoinLines(ls: seq<string>): string {
    if ls == [] then [] else ls[0] + "\n" + JoinLines(ls[1..])
  }

  /** Splitting undoes joining, for lines free of newlines and of a trailing carriage return. */
  lemma {:induction false} LinesJoinLines(ls: seq<string>)
    requires forall i :: 0 <= i < |ls| ==> '\n' !in ls[i]
    requires forall i :: 0 <= i < |ls| ==> |ls[i]| == 0 || ls[i][|ls[i]| - 1] != '\r'
    ensures Lines(JoinLines(ls)) == ls
  {
    if ls != [] {
      var s := JoinLines(ls);
      var l := ls[0];
      var tail := JoinLines(ls[1..]);
      assert s == l + ("\n" + tail);
      assert s[|l|] == '\n';
      assert forall k :: 0 <= k < |l| ==> s[k] == l[k];
      assert NewlineIndex(s) == |l| by {
        NewlineIndexAt(s, |l|);
      }
      assert s[..|l|] == l;
      assert s[|l| + 1..] == tail;
      LinesJoinLines(ls[1..]);
    }
  }

  lemma NewlineIndexAt(s: string, i: nat)
    requires i < |s| && s[i] == '\n'
    requires forall k :: 0 <= k < i ==> s[k] != '\n'
    ensures NewlineIndex(s) == i
  {
    var j := NewlineIndex(s);
  }
}
