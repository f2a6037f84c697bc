/**
 * What the calendar pass records of one purchase: the units of it used so far
 * plus the units of it still queued are the units bought, so with every item
 * type walked once no purchase is used beyond its quantity.
 */
module Conservation {
  import opened Dates
  import opened Records
  import opened Ordering
  import opened Fifo
  import opened Matching
  import opened Usages
  import opened Edits
  import opened Calendar

  /** Units of purchase `id` a queue still holds. */
  function IdStock(queue: seq<Chunk>, id: nat): nat
  {
    if |queue| == 0 then 0
    else (if queue[0].id == id then queue[0].qty else 0) + IdStock(queue[1..], id)
  }

  /** Units of purchase `id` the takes took. */
  function IdTaken(takes: seq<Take>, id: nat): nat
  {
    if |takes| == 0 then 0
    else (if takes[0].id == id then takes[0].qty else 0) + IdTaken(takes[1..], id)
  }

  /** Units of purchase `id` bought by the purchases. */
  function IdBought(purchases: seq<Tx>, id: nat): nat
  {
    if |purchases| == 0 then 0
    else
      var last := purchases[|purchases| - 1];
      IdBought(purchases[..|purchases| - 1], id) + (if last.id == id then last.quantity else 0)
  }

  /** `usedPurchases[id]?.totalUsed || 0`. */
  function UsedOf(used: UsedPurchases, id: nat): nat
  {
    if id in used then used[id].totalUsed else 0
  }

  /** The units of `p` each walk of its type adds: one batch per occurrence of its type. */
  function BoughtOver(types: seq<string>, p: Tx): nat
  {
    if |types| == 0 then 0
    else BoughtOver(types[..|types| - 1], p) + (if types[|types| - 1] == p.itemType then p.quantity else 0)
  }

  /** No two purchases share an id. */
  ghost predicate UniqueIds(purchases: seq<Tx>)
  {
    forall i, j :: 0 <= i < j < |purchases| ==> purchases[i].id != purchases[j].id
  }

  // ---------------------------------------------------------------------
  // One withdrawal and its record

  /** Withdrawing moves units of a purchase from the queue into the takes, none lost or made. */
  lemma {:induction false} WithdrawConservesId(queue: seq<Chunk>, wanted: nat, id: nat)
    ensures IdStock(Withdraw(queue, wanted).rest, id) + IdTaken(Withdraw(queue, wanted).takes, id) == IdStock(queue, id)
    decreases |queue|
  {
    if wanted > 0 && |queue| > 0 {
      var oldest := queue[0];
      var head := Take(oldest.id, Min(oldest.qty, wanted), oldest.costPerUnit);
      if oldest.qty <= wanted {
        var c := Withdraw(queue[1..], wanted - oldest.qty);
        WithdrawConservesId(queue[1..], wanted - oldest.qty, id);
        assert ([head] + c.takes)[1..] == c.takes;
      } else {
        var left := oldest.(qty := oldest.qty - wanted);
        assert ([left] + queue[1..])[1..] == queue[1..];
        assert [head][1..] == [];
      }
    }
  }

  lemma {:induction false} IdStockConcat(front: seq<Chunk>, back: seq<Chunk>, id: nat)
    ensures IdStock(front + back, id) == IdStock(front, id) + IdStock(back, id)
  {
    if |front| == 0 {
      assert front + back == back;
    } else {
      assert (front + back)[1..] == front[1..] + back;
      IdStockConcat(front[1..], back, id);
    }
  }

  lemma {:induction false} IdTakenAppend(takes: seq<Take>, t: Take, id: nat)
    ensures IdTaken(takes + [t], id) == IdTaken(takes, id) + (if t.id == id then t.qty else 0)
  {
    if |takes| == 0 {
      assert [t][1..] == [];
    } else {
      assert (takes + [t])[1..] == takes[1..] + [t];
      IdTakenAppend(takes[1..], t, id);
    }
  }

  /** One use of a purchase adds to its `totalUsed` and to no other. */
  lemma UseAdds(used: UsedPurchases, take: nat, date: Date, qty: nat, id: nat)
    ensures UsedOf(Use(used, take, date, qty), id) == UsedOf(used, id) + (if take == id then qty else 0)
  {
  }

  /** Recording the takes of a withdrawal adds to each purchase's `totalUsed` what was taken of it. */
  lemma {:induction false} UseAllAdds(used: UsedPurchases, takes: seq<Take>, date: Date, id: nat)
    ensures UsedOf(UseAll(used, takes, date), id) == UsedOf(used, id) + IdTaken(takes, id)
  {
    if |takes| > 0 {
      var n := |takes| - 1;
      UseAllAdds(used, takes[..n], date, id);
      UseAdds(UseAll(used, takes[..n], date), takes[n].id, date, takes[n].qty, id);
      IdTakenAppend(takes[..n], takes[n], id);
      assert takes[..n] + [takes[n]] == takes;
    }
  }

  // ---------------------------------------------------------------------
  // What a day's purchases add to a queue

  /** The chunks of the purchases hold what the purchases bought. */
  lemma {:induction false} ChunksHoldId(purchases: seq<Tx>, rates: seq<Rate>, id: nat)
    ensures IdStock(Chunks(purchases, rates), id) == IdBought(purchases, id)
  {
    if |purchases| > 0 {
      var n := |purchases| - 1;
      ChunksHoldId(purchases[..n], rates, id);
      var c := ChunkOf(purchases[n], rates);
      IdStockConcat(Chunks(purchases[..n], rates), [c], id);
      assert [c][1..] == [];
    }
  }

  /** When every purchase with `p`'s id is `p` and `p` occurs at most once, they bought `p`'s quantity if `p` is among them. */
  lemma {:induction false} IdBoughtOnce(purchases: seq<Tx>, p: Tx)
    requires forall x :: x in purchases && x.id == p.id ==> x == p
    requires multiset(purchases)[p] <= 1
    ensures IdBought(purchases, p.id) == if p in purchases then p.quantity else 0
  {
    if |purchases| > 0 {
      var n := |purchases| - 1;
      var init, last := purchases[..n], purchases[n];
      assert purchases == init + [last];
      assert multiset(purchases) == multiset(init) + multiset{last};
      assert forall x :: x in init ==> x in purchases;
      IdBoughtOnce(init, p);
      if last == p {
        assert p !in multiset(init);
      } else {
        assert p in purchases <==> p in init;
      }
    }
  }

  /** Distinct ids: a purchase occurs once. */
  lemma {:induction false} UniqueOccursOnce(purchases: seq<Tx>, p: Tx)
    requires UniqueIds(purchases) && p in purchases
    ensures multiset(purchases)[p] == 1
  {
    var n := |purchases| - 1;
    var init, last := purchases[..n], purchases[n];
    assert purchases == init + [last];
    if last == p {
      forall i | 0 <= i < n ensures init[i] != p {
        assert purchases[i].id != purchases[n].id;
      }
      assert p !in init;
    } else {
      assert p in init;
      assert UniqueIds(init) by {
        forall i, j | 0 <= i < j < |init| ensures init[i].id != init[j].id {
          assert init[i] == purchases[i] && init[j] == purchases[j];
        }
      }
      UniqueOccursOnce(init, p);
    }
  }

  /** Distinct ids: a purchase with `p`'s id is `p`. */
  lemma SameIdIsSame(purchases: seq<Tx>, p: Tx, x: Tx)
    requires UniqueIds(purchases) && p in purchases && x in purchases && x.id == p.id
    ensures x == p
  {
    var i :| 0 <= i < |purchases| && purchases[i] == p;
    var j :| 0 <= j < |purchases| && purchases[j] == x;
    assert !(i < j) && !(j < i);
  }

  /** A day's purchases of one type are purchases, `p` among them as often as among all purchases on its day and type. */
  lemma DayPurchasesCount(all: Books, date: Date, t: string, p: Tx)
    ensures forall x :: x in DayPurchases(all, date, t) ==> x in all.purchases
    ensures multiset(DayPurchases(all, date, t))[p] == if date == p.date && t == p.itemType then multiset(all.purchases)[p] else 0
  {
    var selected := Select(all.purchases, date, t);
    SortByDateTimeOrders(selected);
    forall x | x in DayPurchases(all, date, t) ensures x in all.purchases {
      assert x in multiset(DayPurchases(all, date, t));
      assert x in multiset(selected);
    }
  }

  /** A day's purchases of one type hold `p`'s quantity of `p` on `p`'s day and type, and none of it otherwise. */
  lemma DayPurchasesHoldId(all: Books, date: Date, t: string, p: Tx)
    requires UniqueIds(all.purchases) && p in all.purchases
    ensures IdBought(DayPurchases(all, date, t), p.id) == if date == p.date && t == p.itemType then p.quantity else 0
  {
    var day := DayPurchases(all, date, t);
    DayPurchasesCount(all, date, t, p);
    UniqueOccursOnce(all.purchases, p);
    forall x | x in day && x.id == p.id ensures x == p {
      SameIdIsSame(all.purchases, p, x);
    }
    IdBoughtOnce(day, p);
    assert p in day <==> p in multiset(day);
  }

  // ---------------------------------------------------------------------
  // The walk keeps the account of one purchase

  /**
   * The account of purchase `p`: used plus still queued under its type is
   * `bought`, and no other type's queue holds any of it.
   */
  ghost predicate Tally(queues: Queues, used: UsedPurchases, p: Tx, bought: nat)
  {
    && UsedOf(used, p.id) + IdStock(QueueOf(queues, p.itemType), p.id) == bought
    && forall t :: t in queues && t != p.itemType ==> IdStock(queues[t], p.id) == 0
  }

  /** Settling a queue moves units of a purchase from the queue into `used` and nowhere else. */
  lemma SettleMoves(day: Day, t: string, queue: seq<Chunk>, sales: seq<Tx>, rates: seq<Rate>, date: Date, id: nat)
    ensures var next := Settle(day, t, queue, sales, rates, date);
      && next.queues.Keys == day.queues.Keys + {t}
      && UsedOf(next.used, id) + IdStock(next.queues[t], id) == UsedOf(day.used, id) + IdStock(queue, id)
      && UsedOf(next.used, id) >= UsedOf(day.used, id)
      && forall u :: u in day.queues && u != t ==> next.queues[u] == day.queues[u]
  {
    if SoldQty(sales) > 0 {
      WithdrawConservesId(queue, SoldQty(sales), id);
      UseAllAdds(day.used, Withdraw(queue, SoldQty(sales)).takes, date, id);
    }
  }

  /**
   * A step that only moves units of `p` between queue `t` and `used`, adding
   * `added` units, and leaves every other queue alone keeps the account.
   */
  lemma TallyAfterMove(before: Queues, used: UsedPurchases, after: Queues, usedAfter: UsedPurchases,
                       t: string, p: Tx, bought: nat, added: nat)
    requires Tally(before, used, p, bought)
    requires after.Keys == before.Keys + {t}
    requires UsedOf(usedAfter, p.id) + IdStock(after[t], p.id)
          == UsedOf(used, p.id) + IdStock(QueueOf(before, t), p.id) + added
    requires UsedOf(usedAfter, p.id) >= UsedOf(used, p.id)
    requires forall u :: u in before && u != t ==> after[u] == before[u]
    requires t != p.itemType ==> added == 0
    ensures Tally(after, usedAfter, p, bought + added)
  {
    if t != p.itemType {
      assert IdStock(QueueOf(before, t), p.id) == 0;
      assert QueueOf(after, p.itemType) == QueueOf(before, p.itemType);
    }
  }

  lemma TypeStepTally(day: Day, all: Books, date: Date, t: string, p: Tx, bought: nat)
    requires UniqueIds(all.purchases) && p in all.purchases
    requires Tally(day.queues, day.used, p, bought)
    ensures Tally(TypeStep(day, all, date, t).queues, TypeStep(day, all, date, t).used, p,
                  bought + if date == p.date && t == p.itemType then p.quantity else 0)
  {
    var added := Chunks(DayPurchases(all, date, t), all.rates);
    var queue := QueueOf(day.queues, t) + added;
    var next := Settle(day, t, queue, DaySales(all, date, t), all.rates, date);
    assert TypeStep(day, all, date, t) == next;
    ChunksHoldId(DayPurchases(all, date, t), all.rates, p.id);
    DayPurchasesHoldId(all, date, t, p);
    IdStockConcat(QueueOf(day.queues, t), added, p.id);
    SettleMoves(day, t, queue, DaySales(all, date, t), all.rates, date, p.id);
    TallyAfterMove(day.queues, day.used, next.queues, next.used, t, p, bought,
                   if date == p.date && t == p.itemType then p.quantity else 0);
  }

  lemma {:induction false} OverTypesTally(day: Day, all: Books, date: Date, types: seq<string>, p: Tx, bought: nat)
    requires UniqueIds(all.purchases) && p in all.purchases
    requires Tally(day.queues, day.used, p, bought)
    ensures Tally(OverTypes(day, all, date, types).queues, OverTypes(day, all, date, types).used, p,
                  bought + if date == p.date then BoughtOver(types, p) else 0)
  {
    if |types| > 0 {
      var n := |types| - 1;
      OverTypesTally(day, all, date, types[..n], p, bought);
      TypeStepTally(OverTypes(day, all, date, types[..n]), all, date, types[n], p,
                    bought + if date == p.date then BoughtOver(types[..n], p) else 0);
    }
  }

  /** One day of the walk adds `p`'s day's share to the account: `total` is `bought` plus that share. */
  lemma DayStepTally(w: Walk, all: Books, date: Date, types: seq<string>, p: Tx, bought: nat, total: nat)
    requires UniqueIds(all.purchases) && p in all.purchases
    requires Tally(w.queues, w.used, p, bought)
    requires total == bought + if date == p.date then BoughtOver(types, p) else 0
    ensures Tally(DayStep(w, all, date, types).queues, DayStep(w, all, date, types).used, p, total)
  {
    var day := DayTotals(w.queues, w.used, all, date, types);
    OverTypesTally(Day(w.queues, w.used, Booking(0.0, 0.0)), all, date, types, p, bought);
    DayStepRecords(w, all, date, types, day);
  }

  lemma {:induction false} OverDatesTally(w: Walk, all: Books, dates: seq<Date>, types: seq<string>, p: Tx, bought: nat)
    requires UniqueIds(all.purchases) && p in all.purchases && NoRepeats(dates)
    requires Tally(w.queues, w.used, p, bought)
    ensures Tally(OverDates(w, all, dates, types).queues, OverDates(w, all, dates, types).used, p,
                  bought + if p.date in dates then BoughtOver(types, p) else 0)
  {
    if |dates| > 0 {
      var n := |dates| - 1;
      var last := dates[n];
      LastIsNew(dates);
      OverDatesTally(w, all, dates[..n], types, p, bought);
      ShareSplits(dates, p.date, BoughtOver(types, p));
      DayStepTally(OverDates(w, all, dates[..n], types), all, last, types, p,
                   bought + (if p.date in dates[..n] then BoughtOver(types, p) else 0),
                   bought + if p.date in dates then BoughtOver(types, p) else 0);
    }
  }

  /** Without repeats, a day's share is counted either among the earlier days or on the last. */
  lemma ShareSplits(dates: seq<Date>, d: Date, share: nat)
    requires NoRepeats(dates) && |dates| > 0
    ensures (if d in dates then share else 0)
         == (if d in dates[..|dates| - 1] then share else 0) + (if d == dates[|dates| - 1] then share else 0)
  {
    var n := |dates| - 1;
    LastIsNew(dates);
    assert dates == dates[..n] + [dates[n]];
  }

  /** Each type occurring once, a purchase counts once, under its own type. */
  lemma {:induction false} BoughtOverUnique(types: seq<string>, p: Tx)
    requires Unique(types)
    ensures BoughtOver(types, p) == if p.itemType in types then p.quantity else 0
  {
    if |types| > 0 {
      var n := |types| - 1;
      var init := types[..n];
      assert types == init + [types[n]];
      assert Unique(init) by {
        forall i, j | 0 <= i < j < |init| ensures init[i] != init[j] {
          assert init[i] == types[i] && init[j] == types[j];
        }
      }
      BoughtOverUnique(init, p);
      if types[n] == p.itemType {
        forall i | 0 <= i < n ensures init[i] != p.itemType {
          assert types[i] != types[n];
        }
      }
    }
  }

  /** A type listed twice walks its purchases twice: `p` is queued twice over. */
  lemma DuplicatedTypeCountsTwice(p: Tx)
    ensures BoughtOver([p.itemType, p.itemType], p) == 2 * p.quantity
  {
    var t := p.itemType;
    assert [t, t][..1] == [t];
    assert [t][..0] == [];
    assert BoughtOver([t], p) == p.quantity;
  }

  /**
   * After the calendar pass, the units of a purchase recorded as used plus the
   * units of it still carried over are what was bought of it, once per
   * occurrence of its type among the walked types, and no other type's queue
   * holds any of it. With every type listed once, as the ledger keeps its
   * types, no purchase's `totalUsed` exceeds its quantity, which is what the
   * day details take for granted when they mark a purchase used up.
   */
  lemma UsageWithinPurchase(all: Books, types: seq<string>, p: Tx)
    requires UniqueIds(all.purchases) && p in all.purchases
    ensures var state := CalendarState(all, types);
      && UsedOf(state.usedPurchases, p.id) + IdStock(QueueOf(state.carryover, p.itemType), p.id)
         == BoughtOver(types, p)
      && (forall t :: t in state.carryover && t != p.itemType ==> IdStock(state.carryover[t], p.id) == 0)
      && (Unique(types) ==> UsedOf(state.usedPurchases, p.id) <= p.quantity)
  {
    var dates := AllDates(all.sales, all.purchases);
    AllDatesAscending(all.sales, all.purchases);
    forall i, j | 0 <= i < j < |dates| ensures dates[i] != dates[j] {
      assert Lt(dates[i], dates[j]);
    }
    AllDatesCoverTransactions(all.sales, all.purchases);
    assert p.date in dates;
    OverDatesTally(Start(types), all, dates, types, p, 0);
    if Unique(types) {
      BoughtOverUnique(types, p);
    }
  }
}
