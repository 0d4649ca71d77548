/** The matching loop on orders of any quantity, zero and negative included: it still terminates uncrossed and
    conserves, although averages can then be divided by zero.  `byZero` is whatever such a division gives; nothing
    branches on it. */
module AnyQuantity {
  import opened Filters
  import opened Orders
  import opened Books
  import opened Matching

  predicate Whole(o: Order) { o.open + o.executed == o.quantity }

  predicate AllWhole(b: RawBook) {
    (forall o :: o in b.bids ==> Whole(o)) && (forall o :: o in b.asks ==> Whole(o))
  }

  function Fill(o: Order, price: real, traded: int, byZero: real -> real): Order {
    if traded + o.executed != 0 then o.Execute(price, traded)
    else
      o.(averagePrice := byZero(o.Notional() + price * traded as real),
         open := o.open - traded,
         executed := o.executed + traded,
         lastPrice := price,
         lastQuantity := traded)
  }

  function BidFilled(b: RawBook, byZero: real -> real): Order
    requires Crossed(b)
  {
    Fill(b.bids[0], b.asks[0].price, TradeQuantity(b.bids[0], b.asks[0]), byZero)
  }

  function AskFilled(b: RawBook, byZero: real -> real): Order
    requires Crossed(b)
  {
    Fill(b.asks[0], b.asks[0].price, TradeQuantity(b.bids[0], b.asks[0]), byZero)
  }

  /** Trading the smaller open quantity fills the order that had it, whatever the signs: every trade erases an order. */
  lemma TradeFillsOne(b: RawBook, byZero: real -> real)
    requires Crossed(b) && Whole(b.bids[0]) && Whole(b.asks[0])
    ensures BidFilled(b, byZero).IsFilled() <==> b.bids[0].open <= b.asks[0].open
    ensures AskFilled(b, byZero).IsFilled() <==> b.asks[0].open <= b.bids[0].open
  {
  }

  /** One iteration. */
  function TradeAny(b: RawBook, byZero: real -> real): (r: RawBook)
    requires Crossed(b) && AllWhole(b)
    ensures AllWhole(r) && |r.bids| + |r.asks| < |b.bids| + |b.asks|
  {
    TradeFillsOne(b, byZero);
    ReplacedMembers(b.bids, BidFilled(b, byZero));
    ReplacedMembers(b.asks, AskFilled(b, byZero));
    RawBook(ReplaceBest(b.bids, BidFilled(b, byZero)), ReplaceBest(b.asks, AskFilled(b, byZero)))
  }

  lemma ReplacedMembers(s: seq<Order>, o: Order)
    requires s != []
    ensures forall x :: x in ReplaceBest(s, o) ==> x == o || x in s
  {
  }

  datatype Matched = Matched(book: RawBook, processed: seq<Order>)

  /** The whole loop: it ends on every book, with the book uncrossed. */
  function MatchAny(b: RawBook, byZero: real -> real): (r: Matched)
    requires AllWhole(b)
    ensures AllWhole(r.book) && !Crossed(r.book)
    decreases |b.bids| + |b.asks|
  {
    if !Crossed(b) then Matched(b, [])
    else
      var rest := MatchAny(TradeAny(b, byZero), byZero);
      Matched(rest.book, [BidFilled(b, byZero), AskFilled(b, byZero)] + rest.processed)
  }

  /** Each trade takes the same open quantity off both sides, so their difference never changes. */
  lemma {:induction false} MatchAnyConserves(b: RawBook, byZero: real -> real)
    requires AllWhole(b)
    ensures var r := MatchAny(b, byZero).book;
            OpenQuantity(r.bids) - OpenQuantity(r.asks) == OpenQuantity(b.bids) - OpenQuantity(b.asks)
    decreases |b.bids| + |b.asks|
  {
    if Crossed(b) {
      assert Whole(b.bids[0]) && Whole(b.asks[0]);
      ReplacedOpen(b.bids, BidFilled(b, byZero));
      ReplacedOpen(b.asks, AskFilled(b, byZero));
      MatchAnyConserves(TradeAny(b, byZero), byZero);
    }
  }

  lemma ReplacedOpen(s: seq<Order>, o: Order)
    requires s != [] && Whole(o)
    ensures OpenQuantity(ReplaceBest(s, o)) == OpenQuantity(s) - s[0].open + o.open
  {
    assert ([o] + s[1..])[1..] == s[1..];
  }

  // ---------------------------------------------------------------- with positive quantities it is the engine's loop

  function Events(processed: seq<Order>): seq<Event> {
    seq(|processed|, i requires 0 <= i < |processed| => Sent(FillReport(processed[i])))
  }

  lemma EventsOfTwo(bid: Order, ask: Order, rest: seq<Order>)
    ensures Events([bid, ask] + rest) == [Sent(FillReport(bid)), Sent(FillReport(ask))] + Events(rest)
  {
  }

  lemma ValidIsWhole(b: Book)
    ensures AllWhole(b)
    ensures Crossed(b) ==> forall byZero :: BidFilled(b, byZero) == BidAfter(b) && AskFilled(b, byZero) == AskAfter(b)
  {
  }

  lemma AnyUnfolds(b: Book, byZero: real -> real)
    requires Crossed(b) && AllWhole(b)
    ensures var any, rest := MatchAny(b, byZero), MatchAny(TradeBook(b), byZero);
            any.book == rest.book
            && Events(any.processed)
                == [Sent(FillReport(BidAfter(b))), Sent(FillReport(AskAfter(b)))] + Events(rest.processed)
  {
    ValidIsWhole(b);
    EventsOfTwo(BidAfter(b), AskAfter(b), MatchAny(TradeBook(b), byZero).processed);
  }

  /** On a valid book no division is by zero, and the loop is the value-level matching with the same reports. */
  lemma {:induction false} PositiveIsMatchAll(b: Book, log: seq<Event>, byZero: real -> real)
    ensures AllWhole(b)
    ensures var r, any := MatchAll(SymbolState(b, log)), MatchAny(b, byZero);
            r.book == any.book && r.log == log + Events(any.processed)
    decreases |b.bids| + |b.asks|
  {
    ValidIsWhole(b);
    if Crossed(b) {
      var two := [Sent(FillReport(BidAfter(b))), Sent(FillReport(AskAfter(b)))];
      PositiveIsMatchAll(TradeBook(b), log + two, byZero);
      AnyUnfolds(b, byZero);
      ConcatAssoc(log, two, Events(MatchAny(TradeBook(b), byZero).processed));
    } else {
      assert log + Events([]) == log;
    }
  }
}
