/**
 * Calendar days and clock times as the tracker stores them: `YYYY-MM-DD` and
 * `HH:MM` strings. The program compares them as strings (`<=`, `localeCompare`,
 * the default `Array.prototype.sort`), which for these fixed-width digit formats
 * is the chronological order. This module defines that lexicographic order on
 * character sequences and proves it is a total order.
 */
module Dates {

  type Date = string

  /** `a <= b` on strings: lexicographic by character code. */
  predicate Le(a: string, b: string)
    decreases |a|
  {
    if |a| == 0 then true
    else if |b| == 0 then false
    else if a[0] != b[0] then a[0] < b[0]
    else Le(a[1..], b[1..])
  }

  /** `a < b` on strings. */
  predicate Lt(a: string, b: string)
  {
    Le(a, b) && a != b
  }

  /** Three-way comparison with the sign convention of `localeCompare`. */
  function Compare(a: string, b: string): (c: int)
    ensures c == 0 <==> a == b
    ensures c < 0 <==> Lt(a, b)
    ensures c > 0 <==> Lt(b, a)
  {
    LeTotal(a, b);
    LeAntisymmetric(a, b);
    if a == b then 0 else if Le(a, b) then -1 else 1
  }

  lemma {:induction false} LeReflexive(a: string)
    ensures Le(a, a)
    decreases |a|
  {
    if |a| > 0 {
      LeReflexive(a[1..]);
    }
  }

  lemma {:induction false} LeAntisymmetric(a: string, b: string)
    ensures Le(a, b) && Le(b, a) ==> a == b
    decreases |a|
  {
    if |a| > 0 && |b| > 0 && a[0] == b[0] {
      LeAntisymmetric(a[1..], b[1..]);
      assert a == [a[0]] + a[1..] && b == [b[0]] + b[1..];
    }
  }

  lemma {:induction false} LeTransitive(a: string, b: string, c: string)
    requires Le(a, b) && Le(b, c)
    ensures Le(a, c)
    decreases |a|
  {
    if |a| > 0 && |b| > 0 && |c| > 0 && a[0] == b[0] && b[0] == c[0] {
      LeTransitive(a[1..], b[1..], c[1..]);
    }
  }

  lemma {:induction false} LeTotal(a: string, b: string)
    ensures Le(a, b) || Le(b, a)
    decreases |a|
  {
    if |a| > 0 && |b| > 0 && a[0] == b[0] {
      LeTotal(a[1..], b[1..]);
    }
  }

  lemma LtTransitive(a: string, b: string, c: string)
    requires Lt(a, b) && Lt(b, c)
    ensures Lt(a, c)
  {
    LeTransitive(a, b, c);
    if a == c {
      LeAntisymmetric(a, b);
    }
  }

  lemma LeLtTransitive(a: string, b: string, c: string)
    requires Le(a, b) && Lt(b, c)
    ensures Lt(a, c)
  {
    LeTransitive(a, b, c);
    if a == c {
      LeAntisymmetric(b, c);
    }
  }
}
