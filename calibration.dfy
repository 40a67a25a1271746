/**
 * What the two calibration puzzles (puzzle-1 and puzzle-2) share: every
 * position of a line may yield a digit; a line's calibration value is the
 * first digit found times ten plus the last one, and an error when none is
 * found; a document's value is the sum over its lines, failing at the first
 * line that fails.
 */
module Calibration {
  import opened Wrappers

  /** The digits found at the first k positions, in order. */
  function Found(marks: seq<Option<nat>>, k: nat): seq<nat>
    requires k <= |marks|
  {
    if k == 0 then []
    else Found(marks, k - 1) + (if marks[k - 1].Some? then [marks[k - 1].value] else [])
  }

  /** first*10 + last over the digits found, or the error when there are none. */
  function Combine(found: seq<nat>, missing: string): Result<nat, string> {
    if found == [] then Err(missing) else Ok(found[0] * 10 + found[|found| - 1])
  }

  /** `first` and `last` hold the first and the last digit found so far, None before any. */
  predicate Ends(first: Option<nat>, last: Option<nat>, found: seq<nat>) {
    first == (if found == [] then None else Some(found[0])) &&
    last == (if found == [] then None else Some(found[|found| - 1]))
  }

  /** One more position: a digit there becomes the last one, and the first one if none was found yet. */
  lemma EndsStep(marks: seq<Option<nat>>, i: nat, first: Option<nat>, last: Option<nat>)
    requires i < |marks| && Ends(first, last, Found(marks, i))
    ensures Ends(if marks[i].Some? && first.None? then marks[i] else first,
                 if marks[i].Some? then marks[i] else last, Found(marks, i + 1))
  {
  }

  /** Once every position is visited, the ends give the line's value. */
  lemma EndsCombine(found: seq<nat>, first: Option<nat>, last: Option<nat>, missing: string)
    requires Ends(first, last, found)
    ensures Combine(found, missing) ==
            if first.Some? && last.Some? then Ok(first.value * 10 + last.value) else Err(missing)
  {
  }

  /** Nothing is found iff no position yields a digit. */
  lemma {:induction false} FoundEmpty(marks: seq<Option<nat>>, k: nat)
    requires k <= |marks|
    ensures Found(marks, k) == [] <==> forall i :: 0 <= i < k ==> marks[i].None?
  {
    if k > 0 {
      FoundEmpty(marks, k - 1);
    }
  }

  /** The first digit found comes from the earliest position that yields one. */
  lemma {:induction false} FoundFirst(marks: seq<Option<nat>>, k: nat, i: nat)
    requires i < k <= |marks|
    requires marks[i].Some? && forall j :: 0 <= j < i ==> marks[j].None?
    ensures Found(marks, k) != [] && Found(marks, k)[0] == marks[i].value
  {
    if k == i + 1 {
      FoundEmpty(marks, i);
    } else {
      FoundFirst(marks, k - 1, i);
    }
  }

  /** The last digit found comes from the latest position that yields one. */
  lemma {:induction false} FoundLast(marks: seq<Option<nat>>, k: nat, i: nat)
    requires i < k <= |marks|
    requires marks[i].Some? && forall j :: i < j < k ==> marks[j].None?
    ensures Found(marks, k) != [] && Found(marks, k)[|Found(marks, k)| - 1] == marks[i].value
  {
    if k > i + 1 {
      FoundLast(marks, k - 1, i);
    }
  }

  /** Every digit found comes from some position. */
  lemma {:induction false} FoundFrom(marks: seq<Option<nat>>, k: nat)
    requires k <= |marks|
    ensures forall n :: n in Found(marks, k) ==> exists i :: 0 <= i < k && marks[i] == Some(n)
  {
    if k > 0 {
      FoundFrom(marks, k - 1);
    }
  }

  /** A line fails iff no position yields a digit. */
  lemma CombineError(marks: seq<Option<nat>>, missing: string)
    ensures Combine(Found(marks, |marks|), missing).Err? <==> forall i :: 0 <= i < |marks| ==> marks[i].None?
  {
    FoundEmpty(marks, |marks|);
  }

  /** Otherwise its value is ten times the digit of the earliest such position plus that of the latest. */
  lemma CombineFirstLast(marks: seq<Option<nat>>, missing: string, i: nat, j: nat)
    requires i <= j < |marks| && marks[i].Some? && marks[j].Some?
    requires forall m :: 0 <= m < i ==> marks[m].None?
    requires forall m :: j < m < |marks| ==> marks[m].None?
    ensures Combine(Found(marks, |marks|), missing) == Ok(marks[i].value * 10 + marks[j].value)
  {
    FoundFirst(marks, |marks|, i);
    FoundLast(marks, |marks|, j);
  }

  /** With single-digit marks the value is at most 99. */
  lemma CombineAtMost99(marks: seq<Option<nat>>, missing: string)
    requires forall i :: 0 <= i < |marks| && marks[i].Some? ==> marks[i].value <= 9
    ensures Combine(Found(marks, |marks|), missing).Ok? ==> Combine(Found(marks, |marks|), missing).value <= 99
  {
    var found := Found(marks, |marks|);
    FoundFrom(marks, |marks|);
    if found != [] {
      assert found[0] in found && found[|found| - 1] in found;
    }
  }

  /** The digits found depend only on the first k marks. */
  lemma {:induction false} FoundSame(a: seq<Option<nat>>, b: seq<Option<nat>>, k: nat)
    requires k <= |a| && k <= |b| && a[..k] == b[..k]
    ensures Found(a, k) == Found(b, k)
  {
    if k > 0 {
      assert a[..k - 1] == a[..k][..k - 1] == b[..k][..k - 1] == b[..k - 1];
      assert a[k - 1] == a[..k][k - 1] == b[..k][k - 1] == b[k - 1];
      FoundSame(a, b, k - 1);
    }
  }

  /** Finding is done position by position: the marks of two pieces are found piece by piece. */
  lemma {:induction false} FoundAppend(a: seq<Option<nat>>, b: seq<Option<nat>>)
    ensures Found(a + b, |a + b|) == Found(a, |a|) + Found(b, |b|)
    decreases |b|
  {
    if b == [] {
      assert a + b == a;
    } else {
      var front := b[..|b| - 1];
      assert (a + b)[..|a + front|] == (a + front)[..|a + front|];
      FoundSame(a + b, a + front, |a + front|);
      assert b[..|front|] == front[..|front|];
      FoundSame(b, front, |front|);
      FoundAppend(a, front);
      assert (a + b)[|a + b| - 1] == b[|b| - 1];
    }
  }

  /** The sum of the first k line results, or the first error among them. */
  function SumResults(results: seq<Result<nat, string>>, k: nat): Result<nat, string>
    requires k <= |results|
  {
    if k == 0 then Ok(0)
    else
      var prefix := SumResults(results, k - 1);
      if prefix.Err? then prefix
      else if results[k - 1].Err? then results[k - 1]
      else Ok(prefix.value + results[k - 1].value)
  }

  /** The sum succeeds iff every line does, and is then at least each line's value. */
  lemma {:induction false} SumResultsOk(results: seq<Result<nat, string>>, k: nat)
    requires k <= |results|
    ensures SumResults(results, k).Ok? <==> forall i :: 0 <= i < k ==> results[i].Ok?
    ensures SumResults(results, k).Ok? ==> forall i :: 0 <= i < k ==> results[i].value <= SumResults(results, k).value
  {
    if k > 0 {
      SumResultsOk(results, k - 1);
    }
  }

  /** A failing sum fails with the error of its first failing line. */
  lemma {:induction false} SumResultsFirstError(results: seq<Result<nat, string>>, k: nat, i: nat)
    requires i < k <= |results|
    requires results[i].Err? && forall j :: 0 <= j < i ==> results[j].Ok?
    ensures SumResults(results, k) == results[i]
  {
    if k == i + 1 {
      SumResultsOk(results, i);
    } else {
      SumResultsFirstError(results, k - 1, i);
    }
  }
}
