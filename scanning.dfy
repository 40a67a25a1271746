/**
 * The text combinators the day 5 and day 6 parsers are built from (nom's
 * `tag`, `space1`, `digit1`, `multispace1`, `alpha1`, `line_ending` and
 * `separated_list1(space1, digit1)`), as functions from a text and a
 * position to the position after what they consume, or None when they do
 * not match.
 */
module Scanning {
  import opened Wrappers
  import opened Text

  /** The character classes the combinators consume. */
  datatype CharClass = Space | Digit | Multispace | Alpha | AlphaOrHyphen

  predicate InClass(c: char, cls: CharClass) {
    match cls
    case Space => c == ' ' || c == '\t'
    case Digit => IsDigit(c)
    case Multispace => c == ' ' || c == '\t' || c == '\r' || c == '\n'
    case Alpha => ('a' <= c <= 'z') || ('A' <= c <= 'Z')
    case AlphaOrHyphen => ('a' <= c <= 'z') || ('A' <= c <= 'Z') || c == '-'
  }

  /** Every character of t is in the class. */
  predicate AllIn(t: string, cls: CharClass) {
    forall k :: 0 <= k < |t| ==> InClass(t[k], cls)
  }

  /** A non-empty run of the class. */
  predicate IsRun(t: string, cls: CharClass) {
    |t| > 0 && AllIn(t, cls)
  }

  /** The longest run of the class starting at i ends at the returned position. */
  function Span(s: string, i: nat, cls: CharClass): (j: nat)
    requires i <= |s|
    ensures i <= j <= |s|
    ensures j == |s| || !InClass(s[j], cls)
    decreases |s| - i
  {
    if i == |s| || !InClass(s[i], cls) then i else Span(s, i + 1, cls)
  }

  /** Everything the span passes over is in the class. */
  lemma {:induction false} SpanAll(s: string, i: nat, cls: CharClass)
    requires i <= |s|
    ensures forall k :: i <= k < Span(s, i, cls) ==> InClass(s[k], cls)
    decreases |s| - i
  {
    if i < |s| && InClass(s[i], cls) {
      SpanAll(s, i + 1, cls);
    }
  }

  /** The longest run of the class at i, which must not be empty (`space1`, `digit1`, ...). */
  function Span1(s: string, i: nat, cls: CharClass): (r: Option<nat>)
    requires i <= |s|
    ensures r.Some? ==> i < r.value <= |s|
    ensures r.None? <==> i == |s| || !InClass(s[i], cls)
  {
    var j := Span(s, i, cls);
    if j == i then None else Some(j)
  }

  /** `tag(t)`: the text at i starts with t. */
  function Tag(s: string, i: nat, t: string): (r: Option<nat>)
    requires i <= |s|
    ensures r.Some? <==> i + |t| <= |s| && s[i..i + |t|] == t
    ensures r.Some? ==> r.value == i + |t|
  {
    if i + |t| <= |s| && s[i..i + |t|] == t then Some(i + |t|) else None
  }

  /** `line_ending`: a newline, or a carriage return and a newline. */
  function LineEnding(s: string, i: nat): (r: Option<nat>)
    requires i <= |s|
    ensures r.Some? ==> i < r.value <= |s|
  {
    if i < |s| && s[i] == '\n' then Some(i + 1)
    else if i + 1 < |s| && s[i] == '\r' && s[i + 1] == '\n' then Some(i + 2)
    else None
  }

  /**
   * The groups after the first of `separated_list1(space1, digit1)`: each is
   * a run of spaces then a run of digits; when either is missing the list
   * ends before the spaces, which are left unconsumed.
   */
  function MoreGroups(s: string, j: nat): (r: (seq<string>, nat))
    requires j <= |s|
    ensures j <= r.1 <= |s|
    decreases |s| - j
  {
    match Span1(s, j, Space)
    case None => ([], j)
    case Some(k) =>
      match Span1(s, k, Digit)
      case None => ([], j)
      case Some(m) =>
        var (gs, e) := MoreGroups(s, m);
        ([s[k..m]] + gs, e)
  }

  /** `separated_list1(space1, digit1)`: one or more digit groups separated by spaces. */
  function DigitGroups(s: string, i: nat): (r: Option<(seq<string>, nat)>)
    requires i <= |s|
    ensures r.Some? ==> i < r.value.1 <= |s| && |r.value.0| >= 1
  {
    match Span1(s, i, Digit)
    case None => None
    case Some(j) =>
      var (gs, k) := MoreGroups(s, j);
      Some(([s[i..j]] + gs, k))
  }

  /** Every group the list parser returns is a non-empty run of digits. */
  lemma {:induction false} MoreGroupsDigits(s: string, j: nat)
    requires j <= |s|
    ensures AllRuns(MoreGroups(s, j).0, Digit)
    decreases |s| - j
  {
    match Span1(s, j, Space)
    case None =>
    case Some(k) =>
      match Span1(s, k, Digit)
      case None =>
      case Some(m) =>
        SpanAll(s, k, Digit);
        assert IsRun(s[k..m], Digit);
        MoreGroupsDigits(s, m);
  }

  lemma DigitGroupsDigits(s: string, i: nat)
    requires i <= |s|
    ensures DigitGroups(s, i).Some? ==> AllRuns(DigitGroups(s, i).value.0, Digit)
  {
    var j := Span(s, i, Digit);
    SpanAll(s, i, Digit);
    assert j > i ==> IsRun(s[i..j], Digit);
    MoreGroupsDigits(s, j);
  }

  /** Digit groups are runs of digits, so each has a decimal value. */
  lemma RunDigits(g: string)
    requires IsRun(g, Digit)
    ensures AllDigits(g)
  {
    assert forall k :: 0 <= k < |g| ==> InClass(g[k], Digit);
  }

  /** The values of digit groups, in order. */
  function Values(groups: seq<string>): (vs: seq<nat>)
    requires AllRuns(groups, Digit)
    ensures |vs| == |groups|
  {
    if groups == [] then []
    else RunDigits(groups[0]); [DecimalValue(groups[0])] + Values(groups[1..])
  }

  /** Each value is the value of the group at the same place. */
  lemma {:induction false} ValuesAt(groups: seq<string>, n: nat)
    requires AllRuns(groups, Digit) && n < |groups|
    ensures AllDigits(groups[n]) && Values(groups)[n] == DecimalValue(groups[n])
  {
    RunDigits(groups[n]);
    if n > 0 {
      assert AllRuns(groups[1..], Digit) by {
        assert forall m :: 0 <= m < |groups[1..]| ==> groups[1..][m] == groups[m + 1];
      }
      ValuesAt(groups[1..], n - 1);
    }
  }

  /** Groups laid out behind each other, each after its gap. */
  function Gapped(groups: seq<string>, gaps: seq<string>): string
    requires |groups| == |gaps|
  {
    if groups == [] then "" else gaps[0] + groups[0] + Gapped(groups[1..], gaps[1..])
  }

  /** Groups separated by the gaps. */
  function Spaced(groups: seq<string>, gaps: seq<string>): string
    requires |groups| == |gaps| + 1
  {
    groups[0] + Gapped(groups[1..], gaps)
  }

  /** The text at i reads t. */
  predicate ReadsAt(s: string, i: nat, t: string) {
    i + |t| <= |s| && forall k :: 0 <= k < |t| ==> s[i + k] == t[k]
  }

  /** One character of what the text reads at i. */
  lemma ReadsChar(s: string, i: nat, t: string, k: nat)
    requires ReadsAt(s, i, t) && k < |t|
    ensures i + k < |s| && s[i + k] == t[k]
  {
  }

  /** What the text reads at i is the slice there. */
  lemma ReadsAtSlice(s: string, i: nat, t: string)
    requires ReadsAt(s, i, t)
    ensures s[i..i + |t|] == t
  {
    forall k | 0 <= k < |t| ensures s[i..i + |t|][k] == t[k] {
      assert s[i..i + |t|][k] == s[i + k];
    }
  }

  /**
   * The text reads t at i, stated one character at a time. It means the
   * same as ReadsAt (ReadsFromAt, ReadsAtFrom); a proof about a long layout
   * carries it in this form so that only its first character is in view.
   */
  predicate ReadsFrom(s: string, i: nat, t: string)
    decreases |t|
  {
    i + |t| <= |s| && (|t| == 0 || (s[i] == t[0] && ReadsFrom(s, i + 1, t[1..])))
  }

  lemma {:induction false} ReadsFromAt(s: string, i: nat, t: string)
    requires ReadsFrom(s, i, t)
    ensures ReadsAt(s, i, t)
    decreases |t|
  {
    if |t| > 0 {
      ReadsFromAt(s, i + 1, t[1..]);
      forall k | 0 <= k < |t| ensures s[i + k] == t[k] {
        if k > 0 {
          assert s[i + 1 + (k - 1)] == t[1..][k - 1];
        }
      }
    }
  }

  lemma {:induction false} ReadsAtFrom(s: string, i: nat, t: string)
    requires ReadsAt(s, i, t)
    ensures ReadsFrom(s, i, t)
    decreases |t|
  {
    if |t| > 0 {
      assert s[i + 0] == t[0];
      assert ReadsAt(s, i + 1, t[1..]) by {
        forall k | 0 <= k < |t| - 1 ensures s[i + 1 + k] == t[1..][k] {
          assert s[i + (k + 1)] == t[k + 1];
        }
      }
      ReadsAtFrom(s, i + 1, t[1..]);
    }
  }

  /** The slice at i is what the text reads there. */
  lemma SliceReadsAt(s: string, i: nat, t: string)
    requires i + |t| <= |s| && s[i..i + |t|] == t
    ensures ReadsAt(s, i, t)
  {
    forall k | 0 <= k < |t| ensures s[i + k] == t[k] {
      assert s[i..i + |t|][k] == s[i + k];
    }
  }

  /** Reading a concatenation is reading its parts one after the other. */
  lemma ReadsAtSplit(s: string, i: nat, a: string, b: string)
    requires ReadsAt(s, i, a + b)
    ensures ReadsAt(s, i, a) && ReadsAt(s, i + |a|, b)
  {
    forall k | 0 <= k < |a| ensures s[i + k] == a[k] {
      assert (a + b)[k] == a[k];
    }
    forall k | 0 <= k < |b| ensures s[i + |a| + k] == b[k] {
      assert (a + b)[|a| + k] == b[k];
    }
  }

  /** Reading one part after another is reading their concatenation. */
  lemma ReadsAtJoin(s: string, i: nat, a: string, b: string)
    requires ReadsAt(s, i, a) && ReadsAt(s, i + |a|, b)
    ensures ReadsAt(s, i, a + b)
  {
    forall k | 0 <= k < |a + b| ensures s[i + k] == (a + b)[k] {
      if k >= |a| {
        assert s[i + |a| + (k - |a|)] == b[k - |a|];
      }
    }
  }

  /** A run of the class is consumed exactly, up to the first character outside it. */
  lemma {:induction false} SpanOver(s: string, i: nat, t: string, cls: CharClass)
    requires ReadsAt(s, i, t) && AllIn(t, cls)
    requires i + |t| == |s| || !InClass(s[i + |t|], cls)
    ensures Span(s, i, cls) == i + |t|
    decreases |t|
  {
    if |t| > 0 {
      assert s[i + 0] == t[0];
      assert ReadsAt(s, i + 1, t[1..]) by {
        forall k | 0 <= k < |t[1..]| ensures s[i + 1 + k] == t[1..][k] {
          assert s[i + (k + 1)] == t[k + 1];
        }
      }
      SpanOver(s, i + 1, t[1..], cls);
    }
  }

  /** The list ends where the text is over or holds neither a space nor a digit. */
  predicate ListEnds(s: string, j: nat) {
    j <= |s| && (j == |s| || (!InClass(s[j], Space) && !InClass(s[j], Digit)))
  }

  /** Every one of the texts is a run of the class. */
  predicate AllRuns(ts: seq<string>, cls: CharClass) {
    forall n :: 0 <= n < |ts| ==> IsRun(ts[n], cls)
  }

  /** What follows a digit run and is no digit: a gap, or the end of the list. */
  lemma GappedStart(s: string, j: nat, groups: seq<string>, gaps: seq<string>)
    requires |groups| == |gaps| && AllRuns(gaps, Space)
    requires ReadsAt(s, j, Gapped(groups, gaps)) && ListEnds(s, j + |Gapped(groups, gaps)|)
    ensures j == |s| || !InClass(s[j], Digit)
  {
    if groups != [] {
      assert IsRun(gaps[0], Space);
      assert Gapped(groups, gaps) == gaps[0] + (groups[0] + Gapped(groups[1..], gaps[1..]));
      ReadsAtSplit(s, j, gaps[0], groups[0] + Gapped(groups[1..], gaps[1..]));
      assert s[j + 0] == gaps[0][0];
    }
  }

  /** One gap and one group: the spaces are skipped and the digits returned. */
  lemma GroupStep(s: string, j: nat, gap: string, group: string)
    requires IsRun(gap, Space) && IsRun(group, Digit)
    requires ReadsAt(s, j, gap + group)
    requires j + |gap| + |group| == |s| || !InClass(s[j + |gap| + |group|], Digit)
    ensures Span1(s, j, Space) == Some(j + |gap|)
    ensures Span1(s, j + |gap|, Digit) == Some(j + |gap| + |group|)
    ensures s[j + |gap|..j + |gap| + |group|] == group
  {
    var k := j + |gap|;
    ReadsAtSplit(s, j, gap, group);
    assert s[k + 0] == group[0];
    SpanOver(s, j, gap, Space);
    SpanOver(s, k, group, Digit);
    ReadsAtSlice(s, k, group);
  }

  /** Reading back laid-out groups: the list parser returns them and stops at the end of the layout. */
  lemma {:induction false} MoreGroupsGapped(s: string, j: nat, groups: seq<string>, gaps: seq<string>)
    requires |groups| == |gaps| && AllRuns(groups, Digit) && AllRuns(gaps, Space)
    requires ReadsAt(s, j, Gapped(groups, gaps)) && ListEnds(s, j + |Gapped(groups, gaps)|)
    ensures MoreGroups(s, j) == (groups, j + |Gapped(groups, gaps)|)
    decreases |groups|
  {
    if groups != [] {
      var gap, group, rest := gaps[0], groups[0], Gapped(groups[1..], gaps[1..]);
      var k, m := j + |gaps[0]|, j + |gaps[0]| + |groups[0]|;
      assert IsRun(gap, Space) && IsRun(group, Digit);
      assert ReadsAt(s, j, gap + group) && ReadsAt(s, m, rest) && ListEnds(s, m + |rest|) by {
        assert Gapped(groups, gaps) == (gap + group) + rest;
        ReadsAtSplit(s, j, gap + group, rest);
      }
      assert AllRuns(groups[1..], Digit) && AllRuns(gaps[1..], Space);
      assert Span1(s, j, Space) == Some(k) && Span1(s, k, Digit) == Some(m) && s[k..m] == group by {
        GappedStart(s, m, groups[1..], gaps[1..]);
        GroupStep(s, j, gap, group);
      }
      assert MoreGroups(s, m) == (groups[1..], m + |rest|) by {
        MoreGroupsGapped(s, m, groups[1..], gaps[1..]);
      }
      MoreGroupsUnfold(s, j, k, m);
      assert groups == [groups[0]] + groups[1..];
    }
  }

  lemma MoreGroupsUnfold(s: string, j: nat, k: nat, m: nat)
    requires j <= |s| && k <= |s|
    requires Span1(s, j, Space) == Some(k) && Span1(s, k, Digit) == Some(m)
    ensures MoreGroups(s, j) == ([s[k..m]] + MoreGroups(s, m).0, MoreGroups(s, m).1)
  {
  }

  /** Reading back spaced groups: `separated_list1(space1, digit1)` returns exactly them. */
  lemma DigitGroupsSpaced(s: string, i: nat, groups: seq<string>, gaps: seq<string>)
    requires |groups| == |gaps| + 1 && AllRuns(groups, Digit) && AllRuns(gaps, Space)
    requires ReadsAt(s, i, Spaced(groups, gaps)) && ListEnds(s, i + |Spaced(groups, gaps)|)
    ensures DigitGroups(s, i) == Some((groups, i + |Spaced(groups, gaps)|))
  {
    var group, rest := groups[0], Gapped(groups[1..], gaps);
    var j := i + |group|;
    assert ReadsAt(s, j, rest) && ReadsAt(s, i, group) by {
      ReadsAtSplit(s, i, group, rest);
    }
    assert Span1(s, i, Digit) == Some(j) && s[i..j] == group by {
      assert IsRun(group, Digit);
      GappedStart(s, j, groups[1..], gaps);
      SpanOver(s, i, group, Digit);
    }
    assert MoreGroups(s, j) == (groups[1..], j + |rest|) by {
      assert AllRuns(groups[1..], Digit);
      MoreGroupsGapped(s, j, groups[1..], gaps);
    }
    assert groups == [group] + groups[1..];
  }

  /**
   * `preceded(terminated(tag(prefix), space1), separated_list1(space1, digit1))`:
   * a prefix, spaces, then the digit groups.
   */
  function Labelled(s: string, i: nat, prefix: string): (r: Option<(seq<string>, nat)>)
    requires i <= |s|
    ensures r.Some? ==> i < r.value.1 <= |s| && |r.value.0| >= 1
  {
    match Tag(s, i, prefix)
    case None => None
    case Some(a) =>
      match Span1(s, a, Space)
      case None => None
      case Some(b) => DigitGroups(s, b)
  }

  lemma LabelledDigits(s: string, i: nat, prefix: string)
    requires i <= |s|
    ensures Labelled(s, i, prefix).Some? ==> AllRuns(Labelled(s, i, prefix).value.0, Digit)
  {
    match Tag(s, i, prefix)
    case None =>
    case Some(a) =>
      match Span1(s, a, Space)
      case None =>
      case Some(b) => DigitGroupsDigits(s, b);
  }

  /** A prefix, padding and spaced groups: the labelled list reads back exactly the groups. */
  lemma LabelledLayout(s: string, i: nat, prefix: string, pad: string, groups: seq<string>, gaps: seq<string>)
    requires |groups| == |gaps| + 1 && AllRuns(groups, Digit) && AllRuns(gaps, Space) && IsRun(pad, Space)
    requires ReadsAt(s, i, prefix + pad + Spaced(groups, gaps))
    requires ListEnds(s, i + |prefix + pad + Spaced(groups, gaps)|)
    ensures Labelled(s, i, prefix) == Some((groups, i + |prefix + pad + Spaced(groups, gaps)|))
  {
    var line := Spaced(groups, gaps);
    var a := i + |prefix|;
    var b := a + |pad|;
    assert ReadsAt(s, i, prefix) && ReadsAt(s, a, pad) && ReadsAt(s, b, line) by {
      ReadsAtSplit(s, i, prefix + pad, line);
      ReadsAtSplit(s, i, prefix, pad);
    }
    assert Tag(s, i, prefix) == Some(a) by {
      ReadsAtSlice(s, i, prefix);
    }
    assert Span1(s, a, Space) == Some(b) by {
      assert IsRun(groups[0], Digit);
      assert line == groups[0] + Gapped(groups[1..], gaps);
      assert s[b + 0] == line[0] == groups[0][0];
      assert s[a + 0] == pad[0];
      SpanOver(s, a, pad, Space);
    }
    DigitGroupsSpaced(s, b, groups, gaps);
  }
}
