/**
 * The FIFO queue of purchase chunks kept per item type, and the one operation
 * all three matching passes share: take `wanted` units from the head of the
 * queue, always the oldest chunk first, each take being the smaller of the
 * head's remaining quantity and what is still wanted; a head that reaches zero
 * is removed; when the queue runs dry the rest is simply not matched.
 */
module Fifo {
  import opened Dates

  /** What is left of one purchase: `qty` units at a fixed RUB cost per unit. */
  datatype Chunk = Chunk(id: nat, qty: nat, costPerUnit: real, date: Date, time: string)

  /** `qty` units taken from the chunk of purchase `id`. */
  datatype Take = Take(id: nat, qty: nat, costPerUnit: real)

  /** The queue after a consumption and the takes it made, oldest first. */
  datatype Consumed = Consumed(rest: seq<Chunk>, takes: seq<Take>)

  function Min(a: nat, b: nat): nat
  {
    if a <= b then a else b
  }

  /** Every chunk still holds stock. */
  ghost predicate AllPositive(queue: seq<Chunk>)
  {
    forall i :: 0 <= i < |queue| ==> queue[i].qty > 0
  }

  /** Units held by the queue. */
  function Stock(queue: seq<Chunk>): nat
  {
    if |queue| == 0 then 0 else queue[0].qty + Stock(queue[1..])
  }

  /** Units taken. */
  function Matched(takes: seq<Take>): nat
  {
    if |takes| == 0 then 0 else takes[0].qty + Matched(takes[1..])
  }

  /** The RUB cost of one take. */
  function TakeCost(t: Take): real
  {
    t.qty as real * t.costPerUnit
  }

  /** The RUB cost of the takes. */
  function Cost(takes: seq<Take>): real
  {
    if |takes| == 0 then 0.0 else TakeCost(takes[0]) + Cost(takes[1..])
  }

  /**
   * The matching loop `while (remainingToSell > 0 && queue.length > 0)`: each
   * round takes `min(oldest.qty, remainingToSell)` from the head. When the head
   * has no more than is wanted it is used up and dropped, and the loop goes on;
   * otherwise the head keeps what is left and nothing more is wanted.
   */
  function Withdraw(queue: seq<Chunk>, wanted: nat): Consumed
    decreases |queue|
  {
    if wanted == 0 || |queue| == 0 then Consumed(queue, [])
    else
      var oldest := queue[0];
      if oldest.qty <= wanted then
        var c := Withdraw(queue[1..], wanted - oldest.qty);
        Consumed(c.rest, [Take(oldest.id, oldest.qty, oldest.costPerUnit)] + c.takes)
      else
        Consumed([oldest.(qty := oldest.qty - wanted)] + queue[1..],
                 [Take(oldest.id, wanted, oldest.costPerUnit)])
  }

  /** The loop itself, on a local copy of the queue. */
  method Consume(queue: seq<Chunk>, wanted: nat) returns (rest: seq<Chunk>, takes: seq<Take>)
    ensures Consumed(rest, takes) == Withdraw(queue, wanted)
  {
    rest, takes := queue, [];
    var remaining: nat := wanted;
    while remaining > 0 && |rest| > 0
      invariant Withdraw(queue, wanted) ==
        Consumed(Withdraw(rest, remaining).rest, takes + Withdraw(rest, remaining).takes)
      decreases remaining, |rest|
    {
      var oldest := rest[0];
      var take := Take(oldest.id, Min(oldest.qty, remaining), oldest.costPerUnit);
      ghost var before, taken := rest, takes;
      takes := takes + [take];
      oldest := oldest.(qty := oldest.qty - take.qty);
      if oldest.qty == 0 {
        rest := rest[1..];
      } else {
        rest := rest[0 := oldest];
      }
      WithdrawRound(queue, wanted, before, remaining, taken, take, oldest, rest);
      remaining := remaining - take.qty;
    }
  }

  /**
   * One round of the matching loop keeps its invariant: `take` is
   * `min(oldest.qty, remaining)` from the head, `left` the head reduced by it,
   * and `next` the queue with `left` as its head, or without a head once it is
   * used up; what is still wanted then comes from `next`.
   */
  lemma WithdrawRound(start: seq<Chunk>, wanted: nat, queue: seq<Chunk>, remaining: nat, takes: seq<Take>,
                      take: Take, left: Chunk, next: seq<Chunk>)
    requires remaining > 0 && |queue| > 0
    requires Withdraw(start, wanted) == Consumed(Withdraw(queue, remaining).rest, takes + Withdraw(queue, remaining).takes)
    requires take == Take(queue[0].id, Min(queue[0].qty, remaining), queue[0].costPerUnit)
    requires left == queue[0].(qty := queue[0].qty - take.qty)
    requires next == if left.qty == 0 then queue[1..] else queue[0 := left]
    ensures Withdraw(start, wanted)
      == Consumed(Withdraw(next, remaining - take.qty).rest, (takes + [take]) + Withdraw(next, remaining - take.qty).takes)
  {
    assert queue[0 := left] == [left] + queue[1..];
    var c := Withdraw(next, remaining - take.qty);
    assert Withdraw(queue, remaining) == Consumed(c.rest, [take] + c.takes);
    assert takes + ([take] + c.takes) == (takes + [take]) + c.takes;
  }

  lemma StockAppend(queue: seq<Chunk>, c: Chunk)
    ensures Stock(queue + [c]) == Stock(queue) + c.qty
  {
    if |queue| > 0 {
      assert (queue + [c])[1..] == queue[1..] + [c];
      StockAppend(queue[1..], c);
    }
  }

  lemma {:induction false} StockConcat(front: seq<Chunk>, back: seq<Chunk>)
    ensures Stock(front + back) == Stock(front) + Stock(back)
  {
    if |front| > 0 {
      assert (front + back)[1..] == front[1..] + back;
      StockConcat(front[1..], back);
    } else {
      assert front + back == back;
    }
  }

  lemma PositiveConcat(front: seq<Chunk>, back: seq<Chunk>)
    requires AllPositive(front) && AllPositive(back)
    ensures AllPositive(front + back)
  {
  }

  /**
   * Conservation: what is taken plus what remains is what the queue held, and
   * the quantity taken is the smaller of what was wanted and what was held.
   */
  lemma {:induction false} WithdrawConserves(queue: seq<Chunk>, wanted: nat)
    ensures Stock(Withdraw(queue, wanted).rest) + Matched(Withdraw(queue, wanted).takes) == Stock(queue)
    ensures Matched(Withdraw(queue, wanted).takes) == Min(wanted, Stock(queue))
    decreases |queue|
  {
    if wanted > 0 && |queue| > 0 {
      var h := queue[0];
      if h.qty <= wanted {
        WithdrawConserves(queue[1..], wanted - h.qty);
        CostPrepend(Take(h.id, h.qty, h.costPerUnit), Withdraw(queue[1..], wanted - h.qty).takes);
      } else {
        var left := [h.(qty := h.qty - wanted)] + queue[1..];
        assert left[1..] == queue[1..];
        CostPrepend(Take(h.id, wanted, h.costPerUnit), []);
      }
    }
  }

  /** A queue of non-empty chunks stays one, and every take is of at least one unit. */
  lemma {:induction false} WithdrawKeepsPositive(queue: seq<Chunk>, wanted: nat)
    requires AllPositive(queue)
    ensures AllPositive(Withdraw(queue, wanted).rest)
    ensures forall i :: 0 <= i < |Withdraw(queue, wanted).takes| ==> Withdraw(queue, wanted).takes[i].qty > 0
    decreases |queue|
  {
    if wanted > 0 && |queue| > 0 {
      var h := queue[0];
      if h.qty <= wanted {
        assert AllPositive(queue[1..]) by {
          forall i | 0 <= i < |queue[1..]| ensures queue[1..][i].qty > 0 {
            assert queue[1..][i] == queue[i + 1];
          }
        }
        WithdrawKeepsPositive(queue[1..], wanted - h.qty);
        var c := Withdraw(queue[1..], wanted - h.qty);
        var takes := [Take(h.id, h.qty, h.costPerUnit)] + c.takes;
        forall i | 0 < i < |takes| ensures takes[i].qty > 0 {
          assert takes[i] == c.takes[i - 1];
        }
      } else {
        var left := [h.(qty := h.qty - wanted)] + queue[1..];
        forall i | 0 < i < |left| ensures left[i].qty > 0 {
          assert left[i] == queue[i];
        }
      }
    }
  }

  /** One step of the loop when the head chunk is used up. */
  lemma WithdrawExhausts(queue: seq<Chunk>, wanted: nat)
    requires wanted > 0 && |queue| > 0 && queue[0].qty <= wanted
    ensures var c := Withdraw(queue[1..], wanted - queue[0].qty);
      Withdraw(queue, wanted) ==
        Consumed(c.rest, [Take(queue[0].id, queue[0].qty, queue[0].costPerUnit)] + c.takes)
  {
  }

  /** One step of the loop when the head chunk has more than is wanted: the loop stops. */
  lemma WithdrawStopsInHead(queue: seq<Chunk>, wanted: nat)
    requires wanted > 0 && |queue| > 0 && queue[0].qty > wanted
    ensures Withdraw(queue, wanted) ==
      Consumed([queue[0].(qty := queue[0].qty - wanted)] + queue[1..],
               [Take(queue[0].id, wanted, queue[0].costPerUnit)])
  {
    var reduced := queue[0].(qty := queue[0].qty - wanted);
    assert Withdraw([reduced] + queue[1..], 0) == Consumed([reduced] + queue[1..], []);
  }

  /** The i-th take is from the i-th chunk and takes no more than it holds. */
  ghost predicate TakesFollowQueue(queue: seq<Chunk>, takes: seq<Take>)
  {
    && |takes| <= |queue|
    && (forall i :: 0 <= i < |takes| ==>
          && takes[i].id == queue[i].id
          && takes[i].costPerUnit == queue[i].costPerUnit
          && takes[i].qty <= queue[i].qty)
    && (forall i :: 0 <= i < |takes| - 1 ==> takes[i].qty == queue[i].qty)
  }

  /** The remaining queue: the last chunk taken from, with what is left of it, then the untouched tail. */
  ghost predicate RestFollowsTakes(queue: seq<Chunk>, c: Consumed)
    requires TakesFollowQueue(queue, c.takes)
  {
    || c.rest == queue[|c.takes|..]
    || (&& |c.takes| > 0
        && var k := |c.takes| - 1;
           c.rest == [queue[k].(qty := queue[k].qty - c.takes[k].qty)] + queue[|c.takes|..])
  }

  /**
   * Oldest first: the i-th take is from the i-th chunk of the queue and every
   * take but the last empties its chunk.
   */
  lemma {:induction false} WithdrawIsOldestFirst(queue: seq<Chunk>, wanted: nat)
    ensures TakesFollowQueue(queue, Withdraw(queue, wanted).takes)
    decreases |queue|
  {
    if wanted > 0 && |queue| > 0 && queue[0].qty <= wanted {
      var h := queue[0];
      WithdrawIsOldestFirst(queue[1..], wanted - h.qty);
      var d := Withdraw(queue[1..], wanted - h.qty);
      var takes := [Take(h.id, h.qty, h.costPerUnit)] + d.takes;
      forall i | 0 < i < |takes| ensures takes[i] == d.takes[i - 1] && queue[i] == queue[1..][i - 1] {
      }
    }
  }

  /**
   * What remains is the untouched tail of the queue, possibly behind the last
   * chunk taken from with its quantity reduced by that take.
   */
  lemma {:induction false} WithdrawLeavesTail(queue: seq<Chunk>, wanted: nat)
    ensures TakesFollowQueue(queue, Withdraw(queue, wanted).takes)
    ensures RestFollowsTakes(queue, Withdraw(queue, wanted))
    decreases |queue|
  {
    WithdrawIsOldestFirst(queue, wanted);
    var c := Withdraw(queue, wanted);
    if wanted == 0 || |queue| == 0 {
      assert c.rest == queue[0..];
    } else if queue[0].qty <= wanted {
      var h := queue[0];
      WithdrawLeavesTail(queue[1..], wanted - h.qty);
      var d := Withdraw(queue[1..], wanted - h.qty);
      assert c == Consumed(d.rest, [Take(h.id, h.qty, h.costPerUnit)] + d.takes);
      TailBehindHead(queue, d, c);
    }
  }

  /** A head taken whole: what the rest of the queue leaves is what the whole queue leaves. */
  lemma TailBehindHead(queue: seq<Chunk>, d: Consumed, c: Consumed)
    requires |queue| > 0
    requires c == Consumed(d.rest, [Take(queue[0].id, queue[0].qty, queue[0].costPerUnit)] + d.takes)
    requires TakesFollowQueue(queue[1..], d.takes) && RestFollowsTakes(queue[1..], d)
    requires TakesFollowQueue(queue, c.takes)
    ensures RestFollowsTakes(queue, c)
  {
    assert queue[1..][|d.takes|..] == queue[|c.takes|..];
    if d.rest != queue[1..][|d.takes|..] {
      var k := |d.takes| - 1;
      assert d.takes[k] == c.takes[k + 1] && queue[1..][k] == queue[k + 1];
    }
  }

  lemma CostPrepend(t: Take, takes: seq<Take>)
    ensures Cost([t] + takes) == TakeCost(t) + Cost(takes)
    ensures Matched([t] + takes) == t.qty + Matched(takes)
  {
    assert ([t] + takes)[1..] == takes;
  }

  /** Adding a take's cost at the end of the running total. */
  lemma {:induction false} CostAppend(takes: seq<Take>, t: Take)
    ensures Cost(takes + [t]) == Cost(takes) + TakeCost(t)
  {
    if |takes| > 0 {
      assert (takes + [t])[1..] == takes[1..] + [t];
      CostAppend(takes[1..], t);
    } else {
      assert ([] + [t])[1..] == [];
    }
  }

  lemma SplitTakeCost(id: nat, x: nat, y: nat, cost: real)
    ensures TakeCost(Take(id, x + y, cost)) == TakeCost(Take(id, x, cost)) + TakeCost(Take(id, y, cost))
  {
    assert (x + y) as real * cost == x as real * cost + y as real * cost;
  }

  /**
   * Taking `a` and then `b` units leaves the same queue as taking `a + b` at
   * once, at the same cost.
   */
  lemma {:induction false} WithdrawAdditive(queue: seq<Chunk>, a: nat, b: nat)
    ensures var first := Withdraw(queue, a);
      var second := Withdraw(first.rest, b);
      var both := Withdraw(queue, a + b);
      && both.rest == second.rest
      && Cost(both.takes) == Cost(first.takes) + Cost(second.takes)
    decreases a, |queue|
  {
    var first := Withdraw(queue, a);
    if a == 0 || |queue| == 0 {
      assert first == Consumed(queue, []);
    } else if queue[0].qty <= a {
      WithdrawAdditive(queue[1..], a - queue[0].qty, b);
      WithdrawAdditiveHead(queue, a, b);
    } else if b == 0 {
      assert Withdraw(first.rest, 0) == Consumed(first.rest, []);
    } else if queue[0].qty <= a + b {
      WithdrawEmptiesHeadLater(queue, a, b);
    } else {
      WithdrawStaysInHead(queue, a, b);
    }
  }

  /**
   * `WithdrawAdditive` when the first withdrawal uses up the head chunk,
   * given that it holds for the rest of the queue.
   */
  lemma WithdrawAdditiveHead(queue: seq<Chunk>, a: nat, b: nat)
    requires |queue| > 0 && 0 < a && queue[0].qty <= a
    requires var first := Withdraw(queue[1..], a - queue[0].qty);
      var second := Withdraw(first.rest, b);
      var both := Withdraw(queue[1..], (a - queue[0].qty) + b);
      && both.rest == second.rest
      && Cost(both.takes) == Cost(first.takes) + Cost(second.takes)
    ensures var first := Withdraw(queue, a);
      var second := Withdraw(first.rest, b);
      var both := Withdraw(queue, a + b);
      && both.rest == second.rest
      && Cost(both.takes) == Cost(first.takes) + Cost(second.takes)
  {
    var h := queue[0];
    var t := Take(h.id, h.qty, h.costPerUnit);
    var d1 := Withdraw(queue[1..], a - h.qty);
    var d2 := Withdraw(queue[1..], (a - h.qty) + b);
    WithdrawExhausts(queue, a);
    WithdrawExhausts(queue, a + b);
    assert Withdraw(queue, a) == Consumed(d1.rest, [t] + d1.takes);
    assert Withdraw(queue, a + b) == Consumed(d2.rest, [t] + d2.takes);
    CostPrepend(t, d1.takes);
    CostPrepend(t, d2.takes);
  }

  /** `WithdrawAdditive` when only the second withdrawal uses up the head chunk. */
  lemma WithdrawEmptiesHeadLater(queue: seq<Chunk>, a: nat, b: nat)
    requires a > 0 && |queue| > 0 && a < queue[0].qty <= a + b
    ensures var first := Withdraw(queue, a);
      var second := Withdraw(first.rest, b);
      var both := Withdraw(queue, a + b);
      && both.rest == second.rest
      && Cost(both.takes) == Cost(first.takes) + Cost(second.takes)
  {
    var h := queue[0];
    var tail := queue[1..];
    var reduced := h.(qty := h.qty - a);
    var left := [reduced] + tail;
    var ta := Take(h.id, a, h.costPerUnit);
    var tb := Take(h.id, h.qty - a, h.costPerUnit);
    var tab := Take(h.id, h.qty, h.costPerUnit);
    WithdrawStopsInHead(queue, a);
    CostPrepend(ta, []);
    assert left[0] == reduced && left[1..] == tail;
    WithdrawExhausts(left, b);
    WithdrawExhausts(queue, a + b);
    assert b - reduced.qty == a + b - h.qty;
    CostPrepend(tb, Withdraw(tail, a + b - h.qty).takes);
    CostPrepend(tab, Withdraw(tail, a + b - h.qty).takes);
    SplitTakeCost(h.id, a, h.qty - a, h.costPerUnit);
  }

  /** `WithdrawAdditive` when both withdrawals stop inside the head chunk. */
  lemma WithdrawStaysInHead(queue: seq<Chunk>, a: nat, b: nat)
    requires a > 0 && b > 0 && |queue| > 0 && a + b < queue[0].qty
    ensures var first := Withdraw(queue, a);
      var second := Withdraw(first.rest, b);
      var both := Withdraw(queue, a + b);
      && both.rest == second.rest
      && Cost(both.takes) == Cost(first.takes) + Cost(second.takes)
  {
    var h := queue[0];
    var tail := queue[1..];
    var reduced := h.(qty := h.qty - a);
    var left := [reduced] + tail;
    var ta := Take(h.id, a, h.costPerUnit);
    var tb := Take(h.id, b, h.costPerUnit);
    var tab := Take(h.id, a + b, h.costPerUnit);
    WithdrawStopsInHead(queue, a);
    CostPrepend(ta, []);
    assert left[0] == reduced && left[1..] == tail;
    WithdrawStopsInHead(left, b);
    WithdrawStopsInHead(queue, a + b);
    assert reduced.(qty := reduced.qty - b) == h.(qty := h.qty - (a + b));
    CostPrepend(tb, []);
    CostPrepend(tab, []);
    SplitTakeCost(h.id, a, b, h.costPerUnit);
  }
}
