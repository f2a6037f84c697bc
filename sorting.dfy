/**
 * The program sorts with `Array.prototype.sort` and a comparator. That sort is
 * stable, so it behaves like the insertion sort below: each element goes after
 * every element already placed that it does not strictly precede. `lt(a, b)`
 * means "the comparator puts `a` before `b`" (the comparator is negative).
 */
module Sorting {

  /** `lt` is irreflexive and transitive: a strict order. */
  ghost predicate StrictOrder<T(!new)>(lt: (T, T) -> bool)
  {
    && (forall a :: !lt(a, a))
    && (forall a, b, c :: lt(a, b) && lt(b, c) ==> lt(a, c))
  }

  /** No element is strictly before one that precedes it. */
  ghost predicate Sorted<T>(s: seq<T>, lt: (T, T) -> bool)
  {
    forall i, j :: 0 <= i < j < |s| ==> !lt(s[j], s[i])
  }

  /** Places `x` after every element of `s` that `x` does not strictly precede. */
  function Insert<T>(x: T, s: seq<T>, lt: (T, T) -> bool): (r: seq<T>)
    ensures |r| == |s| + 1
    ensures multiset(r) == multiset(s) + multiset{x}
  {
    if |s| == 0 then [x]
    else if lt(x, s[0]) then [x] + s
    else
      assert s == [s[0]] + s[1..];
      [s[0]] + Insert(x, s[1..], lt)
  }

  /** The stable sort: elements are inserted in input order. */
  function Sort<T>(s: seq<T>, lt: (T, T) -> bool): (r: seq<T>)
    ensures |r| == |s|
    ensures multiset(r) == multiset(s)
  {
    if |s| == 0 then []
    else
      assert s == s[..|s| - 1] + [s[|s| - 1]];
      Insert(s[|s| - 1], Sort(s[..|s| - 1], lt), lt)
  }

  lemma {:induction false} InsertSorted<T(!new)>(x: T, s: seq<T>, lt: (T, T) -> bool)
    requires StrictOrder(lt)
    requires Sorted(s, lt)
    ensures Sorted(Insert(x, s, lt), lt)
  {
    if |s| == 0 {
    } else if lt(x, s[0]) {
      var r := [x] + s;
      forall i, j | 0 <= i < j < |r| ensures !lt(r[j], r[i]) {
        assert r[j] == s[j - 1];
      }
    } else {
      InsertSorted(x, s[1..], lt);
      var tail := Insert(x, s[1..], lt);
      var r := [s[0]] + tail;
      forall k | 0 <= k < |tail| ensures !lt(tail[k], s[0]) {
        assert tail[k] in multiset(tail);
        assert tail[k] in multiset(s[1..]) || tail[k] == x;
        if tail[k] != x {
          var m :| 0 <= m < |s[1..]| && s[1..][m] == tail[k];
          assert s[m + 1] == tail[k];
        }
      }
      forall i, j | 0 <= i < j < |r| ensures !lt(r[j], r[i]) {
        if i == 0 {
          assert r[j] == tail[j - 1];
        } else {
          assert r[i] == tail[i - 1] && r[j] == tail[j - 1];
        }
      }
    }
  }

  lemma {:induction false} SortSorted<T(!new)>(s: seq<T>, lt: (T, T) -> bool)
    requires StrictOrder(lt)
    ensures Sorted(Sort(s, lt), lt)
  {
    if |s| > 0 {
      SortSorted(s[..|s| - 1], lt);
      InsertSorted(s[|s| - 1], Sort(s[..|s| - 1], lt), lt);
    }
  }

  // ---------------------------------------------------------------------
  // Stability

  /** Neither element strictly precedes the other. */
  predicate Tied<T>(a: T, b: T, lt: (T, T) -> bool)
  {
    !lt(a, b) && !lt(b, a)
  }

  /**
   * A strict order whose ties behave like equal keys: whenever `a` strictly
   * precedes `c`, every `b` strictly follows `a` or strictly precedes `c`.
   */
  ghost predicate WeakOrder<T(!new)>(lt: (T, T) -> bool)
  {
    && StrictOrder(lt)
    && (forall a, b, c :: lt(a, c) ==> lt(a, b) || lt(b, c))
  }

  /** The elements tied with `k`, in their order. */
  function Ties<T>(s: seq<T>, k: T, lt: (T, T) -> bool): seq<T>
  {
    if |s| == 0 then []
    else (if Tied(s[0], k, lt) then [s[0]] else []) + Ties(s[1..], k, lt)
  }

  lemma {:induction false} TiesConcat<T>(a: seq<T>, b: seq<T>, k: T, lt: (T, T) -> bool)
    ensures Ties(a + b, k, lt) == Ties(a, k, lt) + Ties(b, k, lt)
  {
    if |a| == 0 {
      assert a + b == b;
    } else {
      var head := if Tied(a[0], k, lt) then [a[0]] else [];
      assert (a + b)[0] == a[0];
      assert (a + b)[1..] == a[1..] + b;
      TiesConcat(a[1..], b, k, lt);
      assert Ties(a + b, k, lt) == head + (Ties(a[1..], k, lt) + Ties(b, k, lt));
      assert Ties(a, k, lt) == head + Ties(a[1..], k, lt);
    }
  }

  lemma {:induction false} NoTies<T>(s: seq<T>, k: T, lt: (T, T) -> bool)
    requires forall i :: 0 <= i < |s| ==> !Tied(s[i], k, lt)
    ensures Ties(s, k, lt) == []
  {
    if |s| > 0 {
      assert forall i :: 0 <= i < |s[1..]| ==> s[1..][i] == s[i + 1];
      NoTies(s[1..], k, lt);
    }
  }

  /**
   * Inserting into a sorted sequence puts `x` after every element tied with
   * it, so the ties of any key keep their order and `x` joins them last.
   */
  lemma {:induction false} InsertTies<T(!new)>(x: T, s: seq<T>, k: T, lt: (T, T) -> bool)
    requires WeakOrder(lt) && Sorted(s, lt)
    ensures Ties(Insert(x, s, lt), k, lt) == Ties(s, k, lt) + (if Tied(x, k, lt) then [x] else [])
  {
    if |s| == 0 {
      assert Insert(x, s, lt) == [x];
      TiesOne(x, k, lt);
    } else if lt(x, s[0]) {
      InsertTiesInFront(x, s, k, lt);
    } else {
      SortedTail(s, lt);
      InsertTies(x, s[1..], k, lt);
      InsertTiesBehind(x, s, k, lt, if Tied(x, k, lt) then [x] else []);
    }
  }

  /** Inserted behind the head, `x` adds to the ties of `k` what it adds to those of the tail. */
  lemma InsertTiesBehind<T>(x: T, s: seq<T>, k: T, lt: (T, T) -> bool, added: seq<T>)
    requires |s| > 0 && !lt(x, s[0])
    requires Ties(Insert(x, s[1..], lt), k, lt) == Ties(s[1..], k, lt) + added
    ensures Ties(Insert(x, s, lt), k, lt) == Ties(s, k, lt) + added
  {
    assert Insert(x, s, lt) == [s[0]] + Insert(x, s[1..], lt);
    assert [s[0]] + s[1..] == s;
    ConsTies(s[0], Insert(x, s[1..], lt), s[1..], k, lt, added);
  }

  /** Putting the same element in front of two sequences keeps what separates their ties. */
  lemma ConsTies<T>(h: T, longer: seq<T>, shorter: seq<T>, k: T, lt: (T, T) -> bool, added: seq<T>)
    requires Ties(longer, k, lt) == Ties(shorter, k, lt) + added
    ensures Ties([h] + longer, k, lt) == Ties([h] + shorter, k, lt) + added
  {
    var head := if Tied(h, k, lt) then [h] else [];
    TiesCons(h, longer, k, lt);
    TiesCons(h, shorter, k, lt);
    AppendAssociates(head, Ties(shorter, k, lt), added);
  }

  lemma TiesCons<T>(h: T, tail: seq<T>, k: T, lt: (T, T) -> bool)
    ensures Ties([h] + tail, k, lt) == (if Tied(h, k, lt) then [h] else []) + Ties(tail, k, lt)
  {
    var s := [h] + tail;
    assert s[0] == h && s[1..] == tail;
  }

  lemma AppendAssociates<T>(a: seq<T>, b: seq<T>, c: seq<T>)
    ensures a + (b + c) == (a + b) + c
  {
  }

  /** Inserted in front, `x` is tied with `k` only when nothing behind it is. */
  lemma InsertTiesInFront<T(!new)>(x: T, s: seq<T>, k: T, lt: (T, T) -> bool)
    requires WeakOrder(lt) && Sorted(s, lt) && |s| > 0 && lt(x, s[0])
    ensures Ties(Insert(x, s, lt), k, lt) == Ties(s, k, lt) + (if Tied(x, k, lt) then [x] else [])
  {
    assert Insert(x, s, lt) == [x] + s;
    TiesConcat([x], s, k, lt);
    TiesOne(x, k, lt);
    if Tied(x, k, lt) {
      NoTiesBehindTied(x, s, k, lt);
    }
  }

  lemma TiesOne<T>(x: T, k: T, lt: (T, T) -> bool)
    ensures Ties([x], k, lt) == if Tied(x, k, lt) then [x] else []
  {
    assert [x][1..] == [];
  }

  lemma SortedTail<T>(s: seq<T>, lt: (T, T) -> bool)
    requires Sorted(s, lt) && |s| > 0
    ensures Sorted(s[1..], lt)
  {
    forall i, j | 0 <= i < j < |s[1..]| ensures !lt(s[1..][j], s[1..][i]) {
      assert s[1..][i] == s[i + 1] && s[1..][j] == s[j + 1];
    }
  }

  /** When `x` is tied with `k` and strictly precedes the head of a sorted sequence, nothing in it is tied with `k`. */
  lemma NoTiesBehindTied<T(!new)>(x: T, s: seq<T>, k: T, lt: (T, T) -> bool)
    requires WeakOrder(lt) && Sorted(s, lt) && |s| > 0
    requires lt(x, s[0]) && Tied(x, k, lt)
    ensures Ties(s, k, lt) == []
  {
    forall i | 0 <= i < |s| ensures !Tied(s[i], k, lt) {
      PrecedesLater(x, s, i, lt);
      WeakStep(x, k, s[i], lt);
    }
    NoTies(s, k, lt);
  }

  /** Strictly before the head of a sorted sequence is strictly before each of its elements. */
  lemma PrecedesLater<T(!new)>(x: T, s: seq<T>, i: nat, lt: (T, T) -> bool)
    requires WeakOrder(lt) && Sorted(s, lt) && i < |s| && lt(x, s[0])
    ensures lt(x, s[i])
  {
    var e, first := s[i], s[0];
    assert !lt(e, first) by {
      if i > 0 {
        assert !lt(s[i], s[0]);
      }
    }
    WeakStep(x, e, first, lt);
  }

  lemma WeakStep<T(!new)>(a: T, b: T, c: T, lt: (T, T) -> bool)
    requires WeakOrder(lt) && lt(a, c)
    ensures lt(a, b) || lt(b, c)
  {
  }

  /** A weak order is a strict order, so the sort's output is sorted. */
  lemma SortSortedWeak<T(!new)>(s: seq<T>, lt: (T, T) -> bool)
    requires WeakOrder(lt)
    ensures Sorted(Sort(s, lt), lt)
  {
    SortSorted(s, lt);
  }

  /**
   * The sort is stable: the elements tied with any key come out in the order
   * they went in.
   */
  lemma {:induction false} SortStable<T(!new)>(s: seq<T>, k: T, lt: (T, T) -> bool)
    requires WeakOrder(lt)
    ensures Ties(Sort(s, lt), k, lt) == Ties(s, k, lt)
  {
    if |s| > 0 {
      var n := |s| - 1;
      SortStable(s[..n], k, lt);
      InsertIntoSortTies(s[n], s[..n], k, lt);
      SortLast(s, lt);
      SnocLast(s);
      TiesSnoc(s[..n], s[n], k, lt);
    }
  }

  /** The last element is inserted into the sorted rest. */
  lemma SortLast<T>(s: seq<T>, lt: (T, T) -> bool)
    requires |s| > 0
    ensures Sort(s, lt) == Insert(s[|s| - 1], Sort(s[..|s| - 1], lt), lt)
  {
  }

  lemma SnocLast<T>(s: seq<T>)
    requires |s| > 0
    ensures s[..|s| - 1] + [s[|s| - 1]] == s
  {
  }

  /** Inserting into the sorted prefix adds `x` last among the ties, if it is tied. */
  lemma InsertIntoSortTies<T(!new)>(x: T, prefix: seq<T>, k: T, lt: (T, T) -> bool)
    requires WeakOrder(lt)
    ensures Ties(Insert(x, Sort(prefix, lt), lt), k, lt) == Ties(Sort(prefix, lt), k, lt) + (if Tied(x, k, lt) then [x] else [])
  {
    SortSortedWeak(prefix, lt);
    InsertTies(x, Sort(prefix, lt), k, lt);
  }

  lemma TiesSnoc<T>(s: seq<T>, x: T, k: T, lt: (T, T) -> bool)
    ensures Ties(s + [x], k, lt) == Ties(s, k, lt) + (if Tied(x, k, lt) then [x] else [])
  {
    TiesConcat(s, [x], k, lt);
    TiesOne(x, k, lt);
  }
}
