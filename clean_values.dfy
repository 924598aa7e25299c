/**
 * `clean_consecutive_values`: pass k of the loop (k = 1, 2, ..., steps)
 * replaces by 0 every value equal to the value k rows above it, so that a
 * value that merely persists from one row to the next is reported once.
 */
module CleanValues {
  import opened Wrappers
  import opened Series

  /** One pass, `s.where(s.ne(s.shift(k)), 0)`: a value equal to the one k rows above becomes 0. */
  function CleanPass(s: Column, k: nat): (r: Column)
    ensures |r| == |s|
  {
    Where(s, NeCol(s, Shift(s, k)), 0.0)
  }

  /** The column after passes 1 .. n, in that order. */
  function Cleaned(s: Column, n: nat): Column
  {
    if n == 0 then s else CleanPass(Cleaned(s, n - 1), n)
  }

  /**
   * No value of r other than 0 or a missing value equals the value 1, 2, ...
   * or n rows above it.
   */
  predicate NoRepeatWithin(r: Column, n: nat) {
    forall j, i :: 0 <= j < i < |r| && i - j <= n && r[i] == r[j] ==> r[i] == Some(0.0) || r[i] == None
  }

  /**
   * A pass keeps a row exactly when its value is missing, the row above it by k
   * is outside the column, or the two values differ; otherwise the row becomes 0.
   */
  lemma CleanPassAt(s: Column, k: nat, i: nat)
    requires i < |s|
    ensures CleanPass(s, k)[i] == if i >= k && s[i].Some? && s[i] == s[i - k] then Some(0.0) else s[i]
  {
  }

  /** A pass only zeroes values, and the pass over distance k removes repeats at distance k while keeping those removed before. */
  lemma CleanPassStep(s: Column, k: nat)
    requires k >= 1 && NoRepeatWithin(s, k - 1)
    ensures forall i :: 0 <= i < |s| ==> CleanPass(s, k)[i] == s[i] || CleanPass(s, k)[i] == Some(0.0)
    ensures NoRepeatWithin(CleanPass(s, k), k)
  {
    var r := CleanPass(s, k);
    forall j, i | 0 <= j < i < |r| && i - j <= k && r[i] == r[j]
      ensures r[i] == Some(0.0) || r[i] == None
    {
      CleanPassAt(s, k, i);
      CleanPassAt(s, k, j);
    }
  }

  /**
   * What the passes together guarantee: the column keeps its length and its
   * first row, every value is the input's or 0, and after n passes no value
   * other than 0 or a missing value repeats within n rows.
   */
  lemma {:induction false} CleanedProperties(s: Column, n: nat)
    ensures |Cleaned(s, n)| == |s|
    ensures |s| > 0 ==> Cleaned(s, n)[0] == s[0]
    ensures forall i :: 0 <= i < |s| ==> Cleaned(s, n)[i] == s[i] || Cleaned(s, n)[i] == Some(0.0)
    ensures NoRepeatWithin(Cleaned(s, n), n)
  {
    if n > 0 {
      var prev := Cleaned(s, n - 1);
      CleanedProperties(s, n - 1);
      CleanPassStep(prev, n);
      if |s| > 0 {
        CleanPassAt(prev, n, 0);
      }
    }
  }

  /** A column that has no repeats within n rows is left as it is by n passes. */
  lemma {:induction false} CleanedFixesClean(s: Column, n: nat)
    requires forall j, i :: 0 <= j < i < |s| && i - j <= n && s[i].Some? ==> s[i] != s[j]
    ensures Cleaned(s, n) == s
  {
    if n > 0 {
      CleanedFixesClean(s, n - 1);
      forall i | 0 <= i < |s|
        ensures CleanPass(s, n)[i] == s[i]
      {
        CleanPassAt(s, n, i);
      }
    }
  }

  /**
   * With the default of one step, a value becomes 0 exactly when it is present
   * and equal to the value in the row above; every other row is kept.
   */
  lemma DefaultStep(s: Column, i: nat)
    requires i < |s|
    ensures |Cleaned(s, 1)| == |s|
    ensures Cleaned(s, 1)[i] == if i >= 1 && s[i].Some? && s[i] == s[i - 1] then Some(0.0) else s[i]
  {
    CleanPassAt(s, 1, i);
  }

  /**
   * `clean_consecutive_values(s, steps)`: the loop runs the passes 1 .. steps;
   * no pass for steps <= 0. The source's default is `steps = 1` (see
   * `DefaultStep`); a caller here passes the count explicitly.
   */
  method CleanConsecutiveValues(s: Column, steps: int) returns (r: Column)
    ensures r == Cleaned(s, if steps < 0 then 0 else steps)
    ensures steps <= 0 ==> r == s
    ensures |r| == |s| && (|s| > 0 ==> r[0] == s[0])
    ensures forall i :: 0 <= i < |s| ==> r[i] == s[i] || r[i] == Some(0.0)
    ensures NoRepeatWithin(r, if steps < 0 then 0 else steps)
  {
    r := s;
    var idx := 0;
    while idx < steps
      invariant 0 <= idx <= if steps < 0 then 0 else steps
      invariant r == Cleaned(s, idx)
    {
      r := CleanPass(r, idx + 1);
      idx := idx + 1;
    }
    assert idx == if steps < 0 then 0 else steps;
    CleanedProperties(s, idx);
  }
}
