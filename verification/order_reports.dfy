/** What a legal life says to the client who reads the reports of one order. */
module OrderReports {
  import opened Orders
  import opened Matching
  import opened SymbolRuns
  import opened OrderLives

  /** A report agrees with the order that entered: LeavesQty + CumQty = OrderQty, nothing negative. */
  predicate Consistent(entered: Order, o: Order) {
    o.SameIdentity(entered) && 0 <= o.open && 0 <= o.executed && o.open + o.executed == o.quantity
  }

  /** A fill strictly raises the executed quantity, a cancel does not lower it and leaves something open,
      and FILLED is sent exactly when nothing is open. */
  predicate Progress(executed: int, e: Event) {
    && e.Sent?
    && e.report.kind in {PARTIALLY_FILLED, FILLED, CANCELED}
    && (e.report.IsFill() ==> executed < e.report.order.executed && !e.report.order.cancelled)
    && (e.report.kind == CANCELED ==> executed <= e.report.order.executed && e.report.order.cancelled)
    && (e.report.kind == FILLED <==> e.report.order.open == 0)
  }

  /** One order's events: it enters once, only the last event may be terminal, every report is consistent
      with the entered order, and executed quantities progress. */
  ghost predicate StreamOk(life: seq<Event>) {
    && (forall k :: 0 <= k < |life| ==> (life[k].Entered? <==> k == 0))
    && (forall k :: 0 <= k < |life| - 1 ==> StillOpen(life[k]))
    && (forall k :: 0 <= k < |life| ==> Consistent(OrderOf(life[0]), OrderOf(life[k])))
    && (forall j, k :: 0 <= j < k < |life| ==> Progress(OrderOf(life[j]).executed, life[k]))
  }

  lemma NextReportProgresses(entered: Order, o: Order, e: Event)
    requires Consistent(entered, o) && NextReport(o, e)
    ensures Consistent(entered, e.report.order) && Progress(o.executed, e)
  {
  }

  lemma {:induction false} LifeIsStream(life: seq<Event>)
    requires LifeOk(life)
    ensures StreamOk(life)
  {
    if |life| > 1 {
      var before, e := life[..|life| - 1], life[|life| - 1];
      var last := |life| - 2;
      LifeIsStream(before);
      assert forall k :: 0 <= k < |before| ==> before[k] == life[k];
      assert Consistent(OrderOf(life[0]), OrderOf(before[last]));
      NextReportProgresses(OrderOf(life[0]), OrderOf(life[last]), e);
      forall j | 0 <= j < |before| ensures Progress(OrderOf(life[j]).executed, e) {
        assert j < last ==> Progress(OrderOf(before[j]).executed, before[last]);
      }
    }
  }

  // ---------------------------------------------------------------- cancellation

  /** A cancellation changes nothing but the flag, which only it sets; nothing executed means nothing priced. */
  ghost predicate CancelsCleanly(life: seq<Event>) {
    && (forall k :: 0 < k < |life| && life[k].Sent? && life[k].report.kind == CANCELED ==>
          SameButCancelled(OrderOf(life[k - 1]), OrderOf(life[k])))
    && (forall k :: 0 <= k < |life| ==>
          (OrderOf(life[k]).cancelled <==> life[k].Sent? && life[k].report.kind == CANCELED))
    && (forall k :: 0 <= k < |life| ==> Unpriced(OrderOf(life[k])))
  }

  predicate Unpriced(o: Order) {
    o.executed == 0 ==> o.averagePrice == 0.0 && o.lastPrice == 0.0 && o.lastQuantity == 0
  }

  lemma NextReportCancelsCleanly(o: Order, e: Event)
    requires NextReport(o, e) && Unpriced(o)
    ensures Unpriced(e.report.order) && (e.report.order.cancelled <==> e.report.kind == CANCELED)
    ensures e.report.kind == CANCELED ==> SameButCancelled(o, e.report.order)
  {
    CancelOnlyFlags(o);
  }

  lemma {:induction false} LifeCancelsCleanly(life: seq<Event>)
    requires LifeOk(life)
    ensures CancelsCleanly(life)
  {
    if |life| > 1 {
      var before, e := life[..|life| - 1], life[|life| - 1];
      LifeCancelsCleanly(before);
      assert forall k :: 0 <= k < |before| ==> life[k] == before[k];
      assert Unpriced(OrderOf(before[|life| - 2]));
      NextReportCancelsCleanly(OrderOf(life[|life| - 2]), e);
    }
  }

  // ---------------------------------------------------------------- average price

  function FillValue(e: Event): real {
    if e.Sent? && e.report.IsFill() then e.report.order.lastPrice * e.report.order.lastQuantity as real else 0.0
  }

  function PaidFor(life: seq<Event>): real {
    if life == [] then 0.0 else PaidFor(life[..|life| - 1]) + FillValue(life[|life| - 1])
  }

  lemma NextReportPays(o: Order, e: Event)
    requires NextReport(o, e)
    ensures e.report.order.Notional() == o.Notional() + FillValue(e)
  {
    if e.report.IsFill() {
      ExecuteConserves(o, e.report.order.lastPrice, e.report.order.lastQuantity);
    }
  }

  /** The running average times the executed quantity is always the money paid over all fills. */
  lemma {:induction false} AverageIsExact(life: seq<Event>)
    requires LifeOk(life) && life != []
    ensures Latest(life).Notional() == PaidFor(life)
  {
    var before := life[..|life| - 1];
    if |life| > 1 {
      AverageIsExact(before);
      assert Latest(before) == OrderOf(life[|life| - 2]);
      NextReportPays(Latest(before), life[|life| - 1]);
    } else {
      assert before == [] && PaidFor(before) == 0.0;
    }
  }

  /** No fill so far was cheaper than `floor`. */
  ghost predicate FillsAtLeast(life: seq<Event>, floor: real) {
    forall k :: 0 <= k < |life| && life[k].Sent? && life[k].report.IsFill() ==> life[k].report.order.lastPrice >= floor
  }

  ghost predicate Within(o: Order, lo: real, hi: real) {
    lo * o.executed as real <= o.Notional() <= hi * o.executed as real
  }

  lemma ScaleBounds(lo: real, x: real, hi: real, n: real)
    requires lo <= x <= hi && 0.0 <= n
    ensures lo * n <= x * n <= hi * n
  {
  }

  lemma NextReportStaysWithin(o: Order, e: Event, floor: real)
    requires NextReport(o, e) && Within(o, floor, o.price)
    requires e.report.IsFill() ==> e.report.order.lastPrice >= floor
    ensures Within(e.report.order, floor, o.price)
  {
    NextReportPays(o, e);
    if e.report.IsFill() {
      var r := e.report.order;
      ScaleBounds(floor, r.lastPrice, o.price, r.lastQuantity as real);
      var n, q := o.executed as real, r.lastQuantity as real;
      assert r.executed as real == n + q;
      assert floor * (n + q) == floor * n + floor * q && o.price * (n + q) == o.price * n + o.price * q;
    }
  }

  lemma {:induction false} NotionalWithin(life: seq<Event>, floor: real)
    requires LifeOk(life) && life != [] && FillsAtLeast(life, floor)
    ensures Within(Latest(life), floor, Latest(life).price)
  {
    if |life| > 1 {
      var before, e := life[..|life| - 1], life[|life| - 1];
      assert FillsAtLeast(before, floor);
      NotionalWithin(before, floor);
      assert Latest(before) == OrderOf(life[|life| - 2]);
      NextReportStaysWithin(Latest(before), e, floor);
    }
  }

  lemma {:induction false} AsksFillAtTheirLimit(life: seq<Event>)
    requires LifeOk(life) && life != [] && Latest(life).side == SELL
    ensures FillsAtLeast(life, Latest(life).price)
  {
    if |life| > 1 {
      var before := life[..|life| - 1];
      assert Latest(before) == OrderOf(life[|life| - 2]);
      AsksFillAtTheirLimit(before);
      assert forall k :: 0 <= k < |before| ==> life[k] == before[k];
    }
  }

  lemma CancelScale(lo: real, a: real, hi: real, n: real)
    requires n > 0.0 && lo * n <= a * n <= hi * n
    ensures lo <= a <= hi
  {
    if a < lo {
      ScaleStrictly(a, lo, n);
    }
    if hi < a {
      ScaleStrictly(hi, a, n);
    }
  }

  lemma ScaleStrictly(x: real, y: real, n: real)
    requires x < y && n > 0.0
    ensures x * n < y * n
  {
  }

  lemma AverageWithin(o: Order, lo: real, hi: real)
    requires Within(o, lo, hi) && o.executed > 0
    ensures lo <= o.averagePrice <= hi
  {
    CancelScale(lo, o.averagePrice, hi, o.executed as real);
  }

  /** A seller's average price is exactly its limit; a buyer's lies between its cheapest fill and its limit. */
  lemma AveragePriceIsFair(life: seq<Event>, floor: real)
    requires LifeOk(life) && life != [] && Latest(life).executed > 0
    ensures Latest(life).side == SELL ==> Latest(life).averagePrice == Latest(life).price
    ensures FillsAtLeast(life, floor) ==> floor <= Latest(life).averagePrice <= Latest(life).price
  {
    var o := Latest(life);
    if o.side == SELL {
      AsksFillAtTheirLimit(life);
      NotionalWithin(life, o.price);
      AverageWithin(o, o.price, o.price);
    }
    if FillsAtLeast(life, floor) {
      NotionalWithin(life, floor);
      AverageWithin(o, floor, o.price);
    }
  }
}
