/** Continuous matching: the best bid trades against the best ask, at the ask price, until the book is uncrossed. */
module Matching {
  import opened Orders
  import opened Books

  datatype Kind = ACCEPTED | FILLED | PARTIALLY_FILLED | CANCELED | REJECTED

  /** An execution report: a copy of the order as it stood, and a status. */
  datatype Report = Report(order: Order, kind: Kind, text: string) {
    predicate IsFill() { kind == FILLED || kind == PARTIALLY_FILLED }
    predicate IsTerminal() { kind == FILLED || kind == CANCELED }
    predicate IsAnnouncement() { kind == ACCEPTED || kind == REJECTED }
  }

  function FillReport(o: Order): Report { Report(o, if o.IsFilled() then FILLED else PARTIALLY_FILLED, "") }

  function CancelReport(o: Order): Report { Report(o, CANCELED, "Order canceled") }

  /** What happens to one symbol: an order enters its book, or its worker sends a report. */
  datatype Event = Entered(order: Order) | Sent(report: Report)

  datatype SymbolState = SymbolState(book: Book, log: seq<Event>)

  const START := SymbolState(EMPTY_BOOK, [])

  predicate Crossed(b: RawBook) {
    b.bids != [] && b.asks != [] && b.bids[0].price >= b.asks[0].price
  }

  function TradeQuantity(bid: Order, ask: Order): int {
    if bid.open > ask.open then ask.open else bid.open
  }

  /** A fill that divides by something and brings the order nearer to being filled. */
  predicate Progresses(o: Order, traded: int) { traded + o.executed != 0 && 0 <= o.open - traded < o.open }

  /** Why quantities have to be positive: the first trade of two orders progresses both exactly when both are.  A zero
      quantity divides by zero; a negative one leaves the other order with more open quantity than before. */
  lemma QuantitiesMustBePositive(bid: Order, ask: Order)
    requires bid.open == bid.quantity && bid.executed == 0 && ask.open == ask.quantity && ask.executed == 0
    ensures var traded := TradeQuantity(bid, ask);
            && (Progresses(bid, traded) && Progresses(ask, traded) <==> bid.quantity > 0 && ask.quantity > 0)
            && (bid.quantity == 0 <= ask.quantity || ask.quantity == 0 < bid.quantity ==> traded + bid.executed == 0)
            && (bid.quantity < 0 <= ask.quantity ==> ask.open - traded > ask.quantity)
            && (ask.quantity < 0 <= bid.quantity ==> bid.open - traded > bid.quantity)
  {
  }

  /** One side after its best order became `o`. */
  function ReplaceBest(s: seq<Order>, o: Order): seq<Order>
    requires s != []
  {
    if o.IsFilled() then s[1..] else [o] + s[1..]
  }

  lemma ReplaceBestKeepsSide(s: seq<Order>, side: Side, tradePrice: real, traded: int)
    requires SideOk(s, side) && s != [] && 0 < traded <= s[0].open
    ensures SideOk(ReplaceBest(s, s[0].Execute(tradePrice, traded)), side)
  {
    var r := s[1..];
    assert forall i :: 0 <= i < |r| ==> r[i] == s[i + 1];
  }

  function BidAfter(b: Book): Order
    requires Crossed(b)
  {
    b.bids[0].Execute(b.asks[0].price, TradeQuantity(b.bids[0], b.asks[0]))
  }

  function AskAfter(b: Book): Order
    requires Crossed(b)
  {
    b.asks[0].Execute(b.asks[0].price, TradeQuantity(b.bids[0], b.asks[0]))
  }

  function TradeBook(b: Book): (r: Book)
    requires Crossed(b)
    ensures |r.bids| + |r.asks| < |b.bids| + |b.asks|
  {
    ReplaceBestKeepsSide(b.bids, BUY, b.asks[0].price, TradeQuantity(b.bids[0], b.asks[0]));
    ReplaceBestKeepsSide(b.asks, SELL, b.asks[0].price, TradeQuantity(b.bids[0], b.asks[0]));
    RawBook(ReplaceBest(b.bids, BidAfter(b)), ReplaceBest(b.asks, AskAfter(b)))
  }

  /** One iteration of the matching loop: the bid's report goes out first, then the ask's. */
  function Trade(st: SymbolState): SymbolState
    requires Crossed(st.book)
  {
    SymbolState(TradeBook(st.book),
                st.log + [Sent(FillReport(BidAfter(st.book))), Sent(FillReport(AskAfter(st.book)))])
  }

  function MatchAll(st: SymbolState): (r: SymbolState)
    ensures !Crossed(r.book)
    decreases |st.book.bids| + |st.book.asks|
  {
    if Crossed(st.book) then MatchAll(Trade(st)) else st
  }

  /** Matching only appends to the log, and what it appends depends on the book alone. */
  lemma {:induction false} MatchAppends(b: Book, log: seq<Event>)
    ensures var r := MatchAll(SymbolState(b, []));
            MatchAll(SymbolState(b, log)) == SymbolState(r.book, log + r.log)
    decreases |b.bids| + |b.asks|
  {
    if Crossed(b) {
      var two := [Sent(FillReport(BidAfter(b))), Sent(FillReport(AskAfter(b)))];
      assert [] + two == two;
      MatchAppends(TradeBook(b), log + two);
      MatchAppends(TradeBook(b), two);
      var r := MatchAll(SymbolState(TradeBook(b), []));
      assert (log + two) + r.log == log + (two + r.log);
    } else {
      assert log + [] == log;
    }
  }

  // ---------------------------------------------------------------- amounts

  function OpenQuantity(s: seq<Order>): int {
    if s == [] then 0 else s[0].open + OpenQuantity(s[1..])
  }

  lemma {:induction false} OpenQuantityAppend(a: seq<Order>, b: seq<Order>)
    ensures OpenQuantity(a + b) == OpenQuantity(a) + OpenQuantity(b)
  {
    if a == [] {
      assert a + b == b;
    } else {
      assert (a + b)[1..] == a[1..] + b;
      OpenQuantityAppend(a[1..], b);
    }
  }

  /** Would trade at price `p`: a bid limited at or above it, an ask limited at or below it. */
  predicate Willing(o: Order, p: real) { if o.side == BUY then o.price >= p else o.price <= p }

  /** Open quantity willing to trade at `p`: demand on the bid side, supply on the ask side. */
  function WillingQuantity(s: seq<Order>, p: real): int {
    if s == [] then 0 else (if Willing(s[0], p) then s[0].open else 0) + WillingQuantity(s[1..], p)
  }

  /** What a fill report adds to the traded quantity of `side`. */
  function Traded(e: Event, side: Side): int {
    if e.Sent? && e.report.IsFill() && e.report.order.side == side then e.report.order.lastQuantity else 0
  }

  function Volume(log: seq<Event>, side: Side): int {
    if log == [] then 0 else Volume(log[..|log| - 1], side) + Traded(log[|log| - 1], side)
  }

  lemma VolumeSnoc(log: seq<Event>, e: Event, side: Side)
    ensures Volume(log + [e], side) == Volume(log, side) + Traded(e, side)
  {
    assert (log + [e])[..|log|] == log;
  }

  lemma TradeVolume(st: SymbolState, side: Side)
    requires Crossed(st.book)
    ensures Volume(Trade(st).log, side) == Volume(st.log, side) + TradeQuantity(st.book.bids[0], st.book.asks[0])
  {
    var bid, ask := Sent(FillReport(BidAfter(st.book))), Sent(FillReport(AskAfter(st.book)));
    assert Trade(st).log == (st.log + [bid]) + [ask];
    VolumeSnoc(st.log, bid, side);
    VolumeSnoc(st.log + [bid], ask, side);
  }

  // ---------------------------------------------------------------- the traded volume is the best single-price volume

  function Min(a: int, b: int): int { if a < b then a else b }

  /** What an auction clearing the whole book at the one price `p` would trade. */
  function ClearingVolume(b: Book, p: real): int { Min(WillingQuantity(b.bids, p), WillingQuantity(b.asks, p)) }

  lemma {:induction false} WillingNonNegative(s: seq<Order>, side: Side, p: real)
    requires SideOk(s, side)
    ensures WillingQuantity(s, p) >= 0
    ensures WillingQuantity(s, p) > 0 ==> s != [] && Willing(s[0], p)
  {
    if s != [] {
      assert SideOk(s[1..], side);
      WillingNonNegative(s[1..], side, p);
      if |s| > 1 {
        assert s[1..][0] == s[1];
      }
    }
  }

  lemma TradeTakesWilling(s: seq<Order>, side: Side, tradePrice: real, traded: int, p: real)
    requires SideOk(s, side) && s != [] && 0 < traded <= s[0].open
    ensures WillingQuantity(s, p)
         == WillingQuantity(ReplaceBest(s, s[0].Execute(tradePrice, traded)), p)
            + if Willing(s[0], p) then traded else 0
  {
    var o := s[0].Execute(tradePrice, traded);
    if !o.IsFilled() {
      assert ([o] + s[1..])[1..] == s[1..];
    }
  }

  lemma TradeDropsClearing(b: Book, p: real)
    requires Crossed(b)
    ensures var q := TradeQuantity(b.bids[0], b.asks[0]);
            && WillingQuantity(b.bids, p)
                == WillingQuantity(TradeBook(b).bids, p) + (if b.bids[0].price >= p then q else 0)
            && WillingQuantity(b.asks, p)
                == WillingQuantity(TradeBook(b).asks, p) + (if b.asks[0].price <= p then q else 0)
  {
    var q := TradeQuantity(b.bids[0], b.asks[0]);
    TradeTakesWilling(b.bids, BUY, b.asks[0].price, q, p);
    TradeTakesWilling(b.asks, SELL, b.asks[0].price, q, p);
  }

  /** No single price could have traded more than matching does. */
  lemma {:induction false} NoPriceTradesMore(st: SymbolState, p: real)
    ensures ClearingVolume(st.book, p) <= Volume(MatchAll(st).log, BUY) - Volume(st.log, BUY)
    decreases |st.book.bids| + |st.book.asks|
  {
    WillingNonNegative(st.book.bids, BUY, p);
    WillingNonNegative(st.book.asks, SELL, p);
    if Crossed(st.book) {
      NoPriceTradesMore(Trade(st), p);
      TradeDropsClearing(st.book, p);
      TradeVolume(st, BUY);
    }
  }

  /** Some single price trades exactly as much: the ask price of the last trade. */
  lemma {:induction false} SomePriceTradesAsMuch(st: SymbolState) returns (p: real)
    ensures ClearingVolume(st.book, p) == Volume(MatchAll(st).log, BUY) - Volume(st.log, BUY)
    decreases |st.book.bids| + |st.book.asks|
  {
    if !Crossed(st.book) {
      p := 0.0;
      WillingNonNegative(st.book.bids, BUY, p);
      WillingNonNegative(st.book.asks, SELL, p);
      NoPriceTradesMore(st, p);
    } else {
      var next := Trade(st).book;
      p := SomePriceTradesAsMuch(Trade(st));
      TradeVolume(st, BUY);
      if ClearingVolume(next, p) <= 0 {
        p := st.book.asks[0].price;
        NoPriceTradesMore(st, p);
      }
      TradeDropsClearing(st.book, p);
      WillingNonNegative(next.bids, BUY, p);
      WillingNonNegative(next.asks, SELL, p);
    }
  }

  /** On any book, however deeply crossed, matching trades the maximum over all prices of min(demand, supply). */
  lemma MatchingIsOptimal(st: SymbolState)
    ensures var traded := Volume(MatchAll(st).log, BUY) - Volume(st.log, BUY);
            && (forall p: real :: ClearingVolume(st.book, p) <= traded)
            && (exists p: real :: ClearingVolume(st.book, p) == traded)
  {
    forall p: real ensures ClearingVolume(st.book, p) <= Volume(MatchAll(st).log, BUY) - Volume(st.log, BUY) {
      NoPriceTradesMore(st, p);
    }
    var p := SomePriceTradesAsMuch(st);
  }
}
