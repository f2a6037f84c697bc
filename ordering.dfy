/**
 * The chronological order of transactions: by day, then by clock time, where
 * a transaction without a time counts as `00:00`.
 */
module Ordering {
  import opened Dates
  import opened Records
  import opened Sorting

  /** The time used for ordering: a blank time is midnight. */
  function EffectiveTime(time: string): string
  {
    if time == "" then "00:00" else time
  }

  /** The comparator `sortByDateTime`: the day decides, and the time only on the same day. */
  function CompareDateTime(a: Tx, b: Tx): (c: int)
  {
    var byDate := Compare(a.date, b.date);
    if byDate != 0 then byDate else Compare(EffectiveTime(a.time), EffectiveTime(b.time))
  }

  /** `a` goes before `b` when the comparator is negative. */
  predicate EarlierThan(a: Tx, b: Tx)
  {
    CompareDateTime(a, b) < 0
  }

  /** The (day, time) key order the sorted sequences respect. */
  predicate NotLater(a: Tx, b: Tx)
  {
    Lt(a.date, b.date) || (a.date == b.date && Le(EffectiveTime(a.time), EffectiveTime(b.time)))
  }

  /** The comparator compares the day first and the effective time second. */
  lemma CompareDateTimeMeaning(a: Tx, b: Tx)
    ensures CompareDateTime(a, b) < 0 <==>
      Lt(a.date, b.date) || (a.date == b.date && Lt(EffectiveTime(a.time), EffectiveTime(b.time)))
    ensures CompareDateTime(a, b) == 0 <==>
      a.date == b.date && EffectiveTime(a.time) == EffectiveTime(b.time)
    ensures CompareDateTime(a, b) > 0 <==> CompareDateTime(b, a) < 0
  {
  }

  lemma EarlierThanIsStrictOrder()
    ensures StrictOrder(EarlierThan)
  {
    forall a: Tx, b: Tx, c: Tx | EarlierThan(a, b) && EarlierThan(b, c)
      ensures EarlierThan(a, c)
    {
      CompareDateTimeMeaning(a, b);
      CompareDateTimeMeaning(b, c);
      CompareDateTimeMeaning(a, c);
      if a.date == b.date && b.date == c.date {
        LtTransitive(EffectiveTime(a.time), EffectiveTime(b.time), EffectiveTime(c.time));
      } else if a.date == b.date {
        assert Lt(b.date, c.date);
      } else if b.date == c.date {
        assert Lt(a.date, b.date);
      } else {
        LtTransitive(a.date, b.date, c.date);
      }
    }
  }

  /** `.sort(sortByDateTime)` on a copy of the transactions. */
  function SortByDateTime(txs: seq<Tx>): seq<Tx>
  {
    Sort(txs, EarlierThan)
  }

  /** Sorting gives the same transactions, ordered by day and then by time. */
  lemma SortByDateTimeOrders(txs: seq<Tx>)
    ensures multiset(SortByDateTime(txs)) == multiset(txs)
    ensures forall i, j :: 0 <= i < j < |txs| ==> NotLater(SortByDateTime(txs)[i], SortByDateTime(txs)[j])
  {
    EarlierThanIsStrictOrder();
    SortSorted(txs, EarlierThan);
    var s := SortByDateTime(txs);
    forall i, j | 0 <= i < j < |txs| ensures NotLater(s[i], s[j]) {
      assert !EarlierThan(s[j], s[i]);
      CompareDateTimeMeaning(s[j], s[i]);
      CompareDateTimeMeaning(s[i], s[j]);
      LeTotal(s[i].date, s[j].date);
      LeTotal(EffectiveTime(s[i].time), EffectiveTime(s[j].time));
      LeReflexive(EffectiveTime(s[i].time));
    }
  }

  /** Not strictly after is at most as late. */
  lemma NotEarlierIsNotLater(a: Tx, b: Tx)
    ensures !EarlierThan(b, a) <==> NotLater(a, b)
  {
    CompareDateTimeMeaning(b, a);
    LeTotal(a.date, b.date);
    LeTotal(EffectiveTime(a.time), EffectiveTime(b.time));
    LeReflexive(EffectiveTime(a.time));
  }

  lemma NotLaterTransitive(a: Tx, b: Tx, c: Tx)
    requires NotLater(a, b) && NotLater(b, c)
    ensures NotLater(a, c)
  {
    if Lt(a.date, b.date) && Lt(b.date, c.date) {
      LtTransitive(a.date, b.date, c.date);
    } else if a.date == b.date && b.date == c.date {
      LeTransitive(EffectiveTime(a.time), EffectiveTime(b.time), EffectiveTime(c.time));
    }
  }

  /** Transactions the comparator cannot tell apart behave like equal keys. */
  lemma EarlierThanIsWeakOrder()
    ensures WeakOrder(EarlierThan)
  {
    EarlierThanIsStrictOrder();
    forall a: Tx, b: Tx, c: Tx | EarlierThan(a, c) ensures EarlierThan(a, b) || EarlierThan(b, c) {
      if !EarlierThan(a, b) && !EarlierThan(b, c) {
        NotEarlierIsNotLater(b, a);
        NotEarlierIsNotLater(c, b);
        NotLaterTransitive(c, b, a);
        NotEarlierIsNotLater(c, a);
      }
    }
  }

  /** The comparator ties two transactions exactly when they share day and effective time. */
  lemma TiedIsSameSlot(a: Tx, b: Tx)
    ensures Tied(a, b, EarlierThan) <==> a.date == b.date && EffectiveTime(a.time) == EffectiveTime(b.time)
  {
    CompareDateTimeMeaning(a, b);
    CompareDateTimeMeaning(b, a);
  }

  /** The transactions with the same day and effective time as `k`, in their order. */
  function SameSlot(txs: seq<Tx>, k: Tx): seq<Tx>
  {
    if |txs| == 0 then []
    else
      var x := txs[0];
      (if x.date == k.date && EffectiveTime(x.time) == EffectiveTime(k.time) then [x] else []) + SameSlot(txs[1..], k)
  }

  lemma {:induction false} SameSlotIsTies(txs: seq<Tx>, k: Tx)
    ensures SameSlot(txs, k) == Ties(txs, k, EarlierThan)
  {
    if |txs| > 0 {
      TiedIsSameSlot(txs[0], k);
      SameSlotIsTies(txs[1..], k);
    }
  }

  /**
   * `sort` is stable: transactions with the same day and time keep the order
   * they were entered in, so of two purchases of one moment the earlier
   * entered is consumed first.
   */
  lemma SortByDateTimeStable(txs: seq<Tx>, k: Tx)
    ensures SameSlot(SortByDateTime(txs), k) == SameSlot(txs, k)
  {
    EarlierThanIsWeakOrder();
    SortStable(txs, k, EarlierThan);
    SameSlotIsTies(txs, k);
    SameSlotIsTies(SortByDateTime(txs), k);
  }
}
