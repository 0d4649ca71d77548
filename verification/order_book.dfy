/** The order book as an object.  Its two multimaps hold orders by value, best price first; a reference to the best
    order is an OrderEntry copied out of the container and written back.  Every method is proved against the
    value-level book. */
module OrderBooks {
  import opened Options
  import opened Orders
  import opened Books
  import opened Matching
  import opened TradingSystem

  lemma FirstNamed(s: seq<Order>, owner: string, clientID: string, i: nat)
    requires i < |s| && Names(s[i], owner, clientID) && forall k :: 0 <= k < i ==> !Names(s[k], owner, clientID)
    ensures FindOn(s, owner, clientID) == Some(i)
  {
  }

  lemma NoneNamed(s: seq<Order>, owner: string, clientID: string)
    requires forall k :: 0 <= k < |s| ==> !Names(s[k], owner, clientID)
    ensures FindOn(s, owner, clientID) == None
  {
  }

  /** What taskNewOrder sends for a queue of processed orders. */
  function FillReports(orders: seq<Order>): seq<Report> {
    seq(|orders|, i requires 0 <= i < |orders| => FillReport(orders[i]))
  }

  lemma TradeReports(log: seq<Event>, orders: seq<Order>, bid: Order, ask: Order)
    requires SentReports(log) == FillReports(orders)
    ensures SentReports(log + [Sent(FillReport(bid)), Sent(FillReport(ask))]) == FillReports(orders + [bid] + [ask])
  {
    var two := log + [Sent(FillReport(bid)), Sent(FillReport(ask))];
    assert two[..|two| - 1] == log + [Sent(FillReport(bid))];
    assert (log + [Sent(FillReport(bid))])[..|log|] == log;
    assert FillReports(orders + [bid] + [ask]) == FillReports(orders) + [FillReport(bid)] + [FillReport(ask)];
  }

  lemma AppendTwo<T>(a: seq<T>, b: seq<T>, x: T, y: T)
    ensures a + b + [x] + [y] == a + (b + [x] + [y])
  {
  }

  lemma MatchContinues(st: SymbolState, next: Book)
    requires Crossed(st.book) && next == TradeBook(st.book)
    ensures MatchAll(st)
         == MatchAll(SymbolState(next,
                                 st.log + [Sent(FillReport(BidAfter(st.book))), Sent(FillReport(AskAfter(st.book)))]))
  {
  }

  class OrderBook {
    ghost const key: string       // the symbol it was created for
    var bidOrders: seq<Order>
    var askOrders: seq<Order>

    function On(side: Side): seq<Order>
      reads this
    {
      if side == BUY then bidOrders else askOrders
    }

    ghost function View(): RawBook
      reads this
    {
      RawBook(bidOrders, askOrders)
    }

    ghost predicate Valid()
      reads this
    {
      SideOk(bidOrders, BUY) && SideOk(askOrders, SELL)
    }

    constructor (ghost key: string)
      ensures Valid() && View() == EMPTY_BOOK && this.key == key
    {
      this.key := key;
      bidOrders, askOrders := [], [];
    }

    /** Any order goes in where its price puts it; a book of live orders stays one if the order is live. */
    method Insert(order: Order)
      modifies this
      ensures View() == old(View()).With(order.side, InsertOn(old(On(order.side)), order))
      ensures old(Valid()) && order.Resting() ==> Valid() && View() == Books.Insert(old(View()), order)
    {
      if order.side == BUY {
        var p := UpperBound(bidOrders, Key(order));
        bidOrders := bidOrders[..p] + [order] + bidOrders[p..];
      } else {
        var p := UpperBound(askOrders, Key(order));
        askOrders := askOrders[..p] + [order] + askOrders[p..];
      }
      if old(Valid()) && order.Resting() {
        InsertKeepsSide(old(On(order.side)), order);
      }
    }

    /** Where the first order with both identifiers stands. */
    method Find(owner: string, clientID: string, side: Side) returns (found: bool, position: nat)
      ensures var i := FindOn(On(side), owner, clientID);
              if i.Some? then found && position == i.value else !found
      ensures found ==> position < |On(side)| && On(side)[position].owner == owner
                        && On(side)[position].clientID == clientID
      ensures forall k :: 0 <= k < |On(side)| && (found ==> k < position) ==>
                On(side)[k].owner != owner || On(side)[k].clientID != clientID
    {
      var orders := On(side);
      position := 0;
      while position < |orders|
        invariant position <= |orders|
        invariant forall k :: 0 <= k < position ==> !Names(orders[k], owner, clientID)
      {
        if orders[position].clientID == clientID && orders[position].owner == owner {
          FirstNamed(orders, owner, clientID, position);
          return true, position;
        }
        position := position + 1;
      }
      NoneNamed(orders, owner, clientID);
      found := false;
    }

    /** The flag set through the pointer that Find gave out; the book is valid again once the order is erased. */
    method CancelAt(side: Side, position: nat) returns (order: Order)
      requires position < |On(side)|
      modifies this
      ensures order == old(On(side)[position]).(cancelled := true)
      ensures order == old(On(side)[position]).Cancel()
      ensures View() == Flagged(old(View()), side, position)
    {
      var entry := new OrderEntry.Copy(On(side)[position]);
      entry.Cancel();
      order := entry.View();
      if side == BUY {
        bidOrders := bidOrders[position := order];
      } else {
        askOrders := askOrders[position := order];
      }
    }

    method Erase(order: Order)
      modifies this
      ensures View() == Books.Erase(old(View()), order)
      ensures var s := old(On(order.side));
              || (&& View() == old(View())
                  && forall k :: 0 <= k < |s| ==> s[k].owner != order.owner || s[k].clientID != order.clientID)
              || exists i :: && 0 <= i < |s| && s[i].owner == order.owner && s[i].clientID == order.clientID
                             && (forall k :: 0 <= k < i ==>
                                   s[k].owner != order.owner || s[k].clientID != order.clientID)
                             && View() == old(View()).With(order.side, s[..i] + s[i + 1..])
    {
      var orders := On(order.side);
      var i := 0;
      while i < |orders|
        invariant 0 <= i <= |orders|
        invariant forall k :: 0 <= k < i ==> !Names(orders[k], order.owner, order.clientID)
      {
        if orders[i].clientID == order.clientID && orders[i].owner == order.owner {
          FirstNamed(orders, order.owner, order.clientID, i);
          if order.side == BUY {
            bidOrders := bidOrders[..i] + bidOrders[i + 1..];
          } else {
            askOrders := askOrders[..i] + askOrders[i + 1..];
          }
          return;
        }
        i := i + 1;
      }
      NoneNamed(orders, order.owner, order.clientID);
    }

    static method MatchTwoOrders(bid: OrderEntry, ask: OrderEntry)
      requires bid != ask && bid.View().Resting() && ask.View().Resting()
      modifies bid, ask
      ensures var q := TradeQuantity(old(bid.View()), old(ask.View()));
              && bid.View() == old(bid.View()).Execute(ask.price, q)
              && ask.View() == old(ask.View()).Execute(ask.price, q)
    {
      var price := ask.price;
      var quantity := 0;
      if bid.openQuantity > ask.openQuantity {
        quantity := ask.openQuantity;
      } else {
        quantity := bid.openQuantity;
      }
      bid.Execute(price, quantity);
      ask.Execute(price, quantity);
    }

    /** One trade of the best bid against the best ask. */
    method TradeBest() returns (bid: Order, ask: Order)
      requires Valid() && Crossed(View())
      modifies this
      ensures Valid() && View() == TradeBook(old(View())) && bid == BidAfter(old(View()))
          && ask == AskAfter(old(View()))
    {
      ghost var after := TradeBook(View());
      var bestBid := new OrderEntry.Copy(bidOrders[0]);
      var bestAsk := new OrderEntry.Copy(askOrders[0]);
      MatchTwoOrders(bestBid, bestAsk);
      bid, ask := bestBid.View(), bestAsk.View();
      if bid.IsFilled() {
        bidOrders := bidOrders[1..];
      } else {
        bidOrders := [bid] + bidOrders[1..];
      }
      if ask.IsFilled() {
        askOrders := askOrders[1..];
      } else {
        askOrders := [ask] + askOrders[1..];
      }
      assert View() == after;
    }

    /** The matching loop: leaves the book uncrossed and appends to the queue, in order, every order it processed. */
    method ProcessMatching(processed: seq<Order>) returns (any: bool, processedOrders: seq<Order>)
      requires Valid()
      modifies this
      ensures Valid() && !Crossed(View())
      ensures View() == MatchAll(SymbolState(old(View()), [])).book
      ensures processed <= processedOrders
      ensures FillReports(processedOrders[|processed|..]) == SentReports(MatchAll(SymbolState(old(View()), [])).log)
      ensures any <==> processedOrders != []
    {
      processedOrders := processed;
      ghost var all := MatchAll(SymbolState(View(), []));
      ghost var log: seq<Event> := [];
      ghost var done: seq<Order> := [];
      while bidOrders != [] && askOrders != [] && bidOrders[0].price >= askOrders[0].price
        invariant Valid()
        invariant all == MatchAll(SymbolState(View(), log))
        invariant processedOrders == processed + done && FillReports(done) == SentReports(log)
        decreases |bidOrders| + |askOrders|
      {
        ghost var st := SymbolState(View(), log);
        assert Crossed(st.book);
        var bid, ask := TradeBest();
        TradeReports(log, done, bid, ask);
        MatchContinues(st, View());
        AppendTwo(processed, done, bid, ask);
        log := log + [Sent(FillReport(bid)), Sent(FillReport(ask))];
        done := done + [bid] + [ask];
        processedOrders := processedOrders + [bid] + [ask];
      }
      assert processedOrders[|processed|..] == done;
      any := |processedOrders| != 0;
    }

    method IsEmpty() returns (empty: bool)
      ensures empty <==> View().bids == [] && View().asks == []
    {
      empty := |bidOrders| == 0 && |askOrders| == 0;
    }
  }
}
