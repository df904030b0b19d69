/**
 * The order-intake server: a store of orders kept in one file that is read in full,
 * changed in memory and written back in full, and the statistics computed over it.
 *
 * The file is modelled by what reading and parsing it yields (`StoredFile`); the clock
 * and `Date.now()` become parameters. Saving is a method of the `OrderStore` class, which
 * holds the file; the statistics are functions over the list of orders.
 */
module OrderServer {
  import opened Wrappers
  import opened Dates
  import opened Calculator

  /**
   * An order as the server holds it: the client's form fields, the client's `total`
   * (which a request may omit), and the `id` and `createdAt` fields.
   */
  datatype Order = Order(form: FormData, total: Option<int>, id: Option<int>, createdAt: Option<YearMonth>)

  /** The order file as reading and parsing it finds it. */
  datatype StoredFile = Missing | Unreadable | Saved(orders: seq<Order>)

  datatype Stats = Stats(total: nat, thisMonth: nat, avgPrice: int)

  /** The request body the server receives for a payload the client posted. */
  function Received(p: Payload): (o: Order)
    ensures o.form == p.form && o.total == Some(p.total)
    ensures o.id == None && o.createdAt == Some(p.createdAt)
  {
    Order(p.form, Some(p.total), None, Some(p.createdAt))
  }

  // ---------------------------------------------------------------------------
  // The store
  // ---------------------------------------------------------------------------

  /** `loadOrders`: the stored list, or the empty list when the file is missing or unreadable. */
  function LoadOrders(file: StoredFile): (orders: seq<Order>)
    ensures file == Missing ==> orders == []
    ensures file == Unreadable ==> orders == []
    ensures file.Saved? ==> orders == file.orders
  {
    match file
    case Saved(os) => os
    case _ => []
  }

  /**
   * The record `saveOrder` stores: every field of the request, then the server's `id` and
   * `createdAt`, which override whatever the request carried under those names.
   */
  function Stamped(o: Order, id: int, now: YearMonth): (r: Order)
    ensures r.form == o.form && r.total == o.total
    ensures r.id == Some(id) && r.createdAt == Some(now)
  {
    o.(id := Some(id), createdAt := Some(now))
  }

  class OrderStore {
    var file: StoredFile

    constructor (file: StoredFile)
      ensures this.file == file
    {
      this.file := file;
    }

    /** The orders the store currently yields, newest first. */
    function Orders(): seq<Order>
      reads this
    {
      LoadOrders(file)
    }

    /** `GET /api/orders`: the stored list, or the empty list when it cannot be read. */
    method ListOrders() returns (orders: seq<Order>)
      ensures file.Saved? ==> orders == file.orders
      ensures !file.Saved? ==> orders == []
    {
      orders := LoadOrders(file);
    }

    /**
     * `saveOrder`: loads the list, puts the stamped order in front of it and writes the
     * whole list back; returns the order it was given, not the stored one. A file that
     * could not be read is replaced by a list holding only the new order.
     */
    method SaveOrder(order: Order, id: int, now: YearMonth) returns (echoed: Order)
      modifies this
      ensures file == Saved([Stamped(order, id, now)] + old(Orders()))
      ensures |Orders()| == |old(Orders())| + 1
      ensures Orders()[0] == Stamped(order, id, now)
      ensures Orders()[1..] == old(Orders())
      ensures echoed == order
    {
      var orders := LoadOrders(file);
      orders := [Stamped(order, id, now)] + orders;
      file := Saved(orders);
      echoed := order;
      assert Orders()[1..] == old(Orders());
    }

    /** `GET /api/stats` on the current contents of the store. */
    method GetStats(now: YearMonth) returns (s: Stats)
      ensures s.total == |Orders()| && s.thisMonth <= s.total
      ensures s.thisMonth == |MonthIndices(Orders(), now)|
      ensures Orders() == [] ==> s.avgPrice == 0
      ensures Orders() != [] ==> s.avgPrice == RoundedQuotient(SumTotals(Orders()), |Orders()|)
      ensures Orders() != [] ==> MinTotal(Orders()) <= s.avgPrice <= MaxTotal(Orders())
    {
      var orders := LoadOrders(file);
      s := ComputeStats(orders, now);
      ThisMonthCountsMatchingOrders(orders, now);
      if orders != [] {
        AveragePriceBounded(orders, now);
      }
    }
  }

  // ---------------------------------------------------------------------------
  // Statistics
  // ---------------------------------------------------------------------------

  /** An order created in the same calendar month as `now`; a missing date never is. */
  predicate InMonth(o: Order, now: YearMonth) {
    o.createdAt.Some? && SameMonth(o.createdAt.value, now)
  }

  /** `orders.filter(...)`: the orders of the current month, in their stored order. */
  function ThisMonth(orders: seq<Order>, now: YearMonth): (r: seq<Order>)
    ensures |r| <= |orders|
    ensures forall o :: o in r <==> o in orders && InMonth(o, now)
  {
    if orders == [] then []
    else
      var front, last := orders[..|orders| - 1], orders[|orders| - 1];
      assert forall o :: o in orders <==> o in front || o == last;
      ThisMonth(front, now) + (if InMonth(last, now) then [last] else [])
  }

  /** `b.total || 0`: a missing total counts as zero. */
  function TotalOrZero(o: Order): int {
    o.total.GetOr(0)
  }

  /** `orders.reduce((a, b) => a + (b.total || 0), 0)`: a left fold. */
  function SumTotals(orders: seq<Order>): int {
    if orders == [] then 0 else SumTotals(orders[..|orders| - 1]) + TotalOrZero(orders[|orders| - 1])
  }

  /**
   * `Math.round(sum / n)` over the rationals: the integer nearest to sum / n, halves
   * rounded up.
   */
  function RoundedQuotient(sum: int, n: nat): (r: int)
    requires n > 0
    ensures n * (2 * r - 1) <= 2 * sum < n * (2 * r + 1)
  {
    var q := (2 * sum + n) / (2 * n);
    assert 2 * n * q <= 2 * sum + n < 2 * n * q + 2 * n;
    q
  }

  /** The statistics handler over a loaded list of orders. */
  function ComputeStats(orders: seq<Order>, now: YearMonth): (s: Stats)
    ensures s.total == |orders| && s.thisMonth <= s.total
    ensures orders == [] ==> s == Stats(0, 0, 0)
  {
    Stats(
      |orders|,
      |ThisMonth(orders, now)|,
      if |orders| > 0 then RoundedQuotient(SumTotals(orders), |orders|) else 0)
  }

  /** The smallest total of a non-empty list (missing totals counting as zero). */
  function MinTotal(orders: seq<Order>): (m: int)
    requires orders != []
    ensures forall o :: o in orders ==> m <= TotalOrZero(o)
    ensures exists o :: o in orders && m == TotalOrZero(o)
  {
    if |orders| == 1 then TotalOrZero(orders[0])
    else
      var rest := MinTotal(orders[1..]);
      if TotalOrZero(orders[0]) <= rest then TotalOrZero(orders[0]) else rest
  }

  /** The largest total of a non-empty list (missing totals counting as zero). */
  function MaxTotal(orders: seq<Order>): (m: int)
    requires orders != []
    ensures forall o :: o in orders ==> TotalOrZero(o) <= m
    ensures exists o :: o in orders && m == TotalOrZero(o)
  {
    if |orders| == 1 then TotalOrZero(orders[0])
    else
      var rest := MaxTotal(orders[1..]);
      if TotalOrZero(orders[0]) >= rest then TotalOrZero(orders[0]) else rest
  }

  /** The positions of the list that hold an order of the current month. */
  ghost function MonthIndices(orders: seq<Order>, now: YearMonth): set<int> {
    set i | 0 <= i < |orders| && InMonth(orders[i], now)
  }

  /** `thisMonth` counts exactly the positions of the list holding an order of the current month. */
  lemma {:induction false} ThisMonthCountsMatchingOrders(orders: seq<Order>, now: YearMonth)
    ensures |ThisMonth(orders, now)| == |MonthIndices(orders, now)|
    decreases |orders|
  {
    if orders != [] {
      var n := |orders| - 1;
      ThisMonthCountsMatchingOrders(orders[..n], now);
      MonthIndicesSnoc(orders, now);
    }
  }

  /** Dropping the last order drops its position, if it held an order of the current month. */
  lemma MonthIndicesSnoc(orders: seq<Order>, now: YearMonth)
    requires orders != []
    ensures var n := |orders| - 1;
      |MonthIndices(orders, now)| ==
      |MonthIndices(orders[..n], now)| + (if InMonth(orders[n], now) then 1 else 0)
  {
    var n := |orders| - 1;
    var front := orders[..n];
    var before := MonthIndices(front, now);
    var added: set<int> := if InMonth(orders[n], now) then {n} else {};
    forall i ensures i in MonthIndices(orders, now) <==> i in before + added {
      if 0 <= i < n {
        assert front[i] == orders[i];
      }
    }
    assert MonthIndices(orders, now) == before + added;
    assert n !in before;
  }

  /** Filtering after prepending one order: that order comes first if it is of the current month. */
  lemma {:induction false} ThisMonthPrepend(o: Order, orders: seq<Order>, now: YearMonth)
    ensures ThisMonth([o] + orders, now) == (if InMonth(o, now) then [o] else []) + ThisMonth(orders, now)
    decreases |orders|
  {
    if orders == [] {
      assert ([o] + orders)[..0] == [];
    } else {
      var front := orders[..|orders| - 1];
      assert ([o] + orders)[..|orders|] == [o] + front;
      ThisMonthPrepend(o, front, now);
    }
  }

  /** Summing after prepending one order adds that order's total. */
  lemma {:induction false} SumTotalsPrepend(o: Order, orders: seq<Order>)
    ensures SumTotals([o] + orders) == TotalOrZero(o) + SumTotals(orders)
    decreases |orders|
  {
    if orders != [] {
      var front := orders[..|orders| - 1];
      assert ([o] + orders)[..|orders|] == [o] + front;
      SumTotalsPrepend(o, front);
    } else {
      assert ([o] + orders)[..0] == [];
    }
  }

  /** Every total lies between `lo` and `hi`, so the sum lies between n·lo and n·hi. */
  lemma {:induction false} SumTotalsBounded(orders: seq<Order>, lo: int, hi: int)
    requires forall o :: o in orders ==> lo <= TotalOrZero(o) <= hi
    ensures |orders| * lo <= SumTotals(orders) <= |orders| * hi
    decreases |orders|
  {
    if orders != [] {
      var k := |orders| - 1;
      var front, last := orders[..k], orders[k];
      assert forall o :: o in front ==> o in orders;
      assert last in orders;
      SumTotalsBounded(front, lo, hi);
      MulSuccessor(k, lo);
      MulSuccessor(k, hi);
    }
  }

  lemma MulSuccessor(k: int, x: int)
    ensures (k + 1) * x == k * x + x
  {
  }

  /** A nearest-integer quotient of a sum lying between n·lo and n·hi lies between lo and hi. */
  lemma RoundedQuotientBounded(sum: int, n: nat, lo: int, hi: int)
    requires n > 0 && n * lo <= sum <= n * hi
    ensures lo <= RoundedQuotient(sum, n) <= hi
  {
    var r := RoundedQuotient(sum, n);
    assert n * (2 * lo) == 2 * (n * lo);
    assert n * (2 * lo) < n * (2 * r + 1);
    CancelPositiveFactor(n, 2 * lo, 2 * r + 1);
    assert n * (2 * hi) == 2 * (n * hi);
    assert n * (2 * hi + 1) == n * (2 * hi) + n;
    assert n * (2 * r - 1) < n * (2 * hi + 1);
    CancelPositiveFactor(n, 2 * r - 1, 2 * hi + 1);
  }

  lemma CancelPositiveFactor(n: int, a: int, b: int)
    requires n > 0 && n * a < n * b
    ensures a < b
  {
    if a >= b {
      MulMonotone(b, a, n);
    }
  }

  /** `avgPrice` of a non-empty list lies between its smallest and its largest total. */
  lemma AveragePriceBounded(orders: seq<Order>, now: YearMonth)
    requires orders != []
    ensures MinTotal(orders) <= ComputeStats(orders, now).avgPrice <= MaxTotal(orders)
  {
    var lo, hi := MinTotal(orders), MaxTotal(orders);
    SumTotalsBounded(orders, lo, hi);
    RoundedQuotientBounded(SumTotals(orders), |orders|, lo, hi);
  }

  /**
   * The statistics after `saveOrder(o)` at `now`: one more order, one more this month, and
   * the sum of totals grows by the client's total for `o`.
   */
  lemma StatsAfterSave(o: Order, id: int, now: YearMonth, orders: seq<Order>)
    ensures ComputeStats([Stamped(o, id, now)] + orders, now).total == |orders| + 1
    ensures ComputeStats([Stamped(o, id, now)] + orders, now).thisMonth == ComputeStats(orders, now).thisMonth + 1
    ensures SumTotals([Stamped(o, id, now)] + orders) == SumTotals(orders) + TotalOrZero(o)
  {
    var s := Stamped(o, id, now);
    ThisMonthPrepend(s, orders, now);
    SumTotalsPrepend(s, orders);
  }

  /**
   * A submitted form reaches the store with the total the client computed for it, and
   * with the server's id and date in place of the client's date.
   */
  lemma SubmittedTotalIsStored(f: FormData, clientNow: YearMonth, id: int, now: YearMonth)
    requires f.name != [] && f.phone != []
    ensures Submit(f, clientNow).Some?
    ensures var stored := Stamped(Received(Submit(f, clientNow).value), id, now);
      stored.form == f && stored.total == Some(QuoteTotal(f)) &&
      stored.id == Some(id) && stored.createdAt == Some(now)
  {
  }
}
