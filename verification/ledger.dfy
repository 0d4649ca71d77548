/** Double-entry bookkeeping over a symbol's whole log. */
module Ledger {
  import opened Orders
  import opened Books
  import opened Matching
  import opened SymbolRuns

  function EnteredQuantity(log: seq<Event>, side: Side): int {
    if log == [] then 0
    else
      var e := log[|log| - 1];
      EnteredQuantity(log[..|log| - 1], side) + if e.Entered? && e.order.side == side then e.order.quantity else 0
  }

  function CancelledQuantity(log: seq<Event>, side: Side): int {
    if log == [] then 0
    else
      var e := log[|log| - 1];
      CancelledQuantity(log[..|log| - 1], side)
        + if e.Sent? && e.report.kind == CANCELED && e.report.order.side == side then e.report.order.open else 0
  }

  function Paid(e: Event, side: Side): real {
    if e.Sent? && e.report.IsFill() && e.report.order.side == side
    then e.report.order.lastPrice * e.report.order.lastQuantity as real else 0.0
  }

  function TradedNotional(log: seq<Event>, side: Side): real {
    if log == [] then 0.0 else TradedNotional(log[..|log| - 1], side) + Paid(log[|log| - 1], side)
  }

  lemma NotionalSnoc(log: seq<Event>, e: Event, side: Side)
    ensures TradedNotional(log + [e], side) == TradedNotional(log, side) + Paid(e, side)
  {
    assert (log + [e])[..|log|] == log;
  }

  /** Everything that entered on a side is still open there, was traded, or was cancelled. */
  ghost predicate SideBalances(st: SymbolState, side: Side) {
    EnteredQuantity(st.log, side)
      == OpenQuantity(st.book.On(side)) + Volume(st.log, side) + CancelledQuantity(st.log, side)
  }

  /** Both sides balance, and they traded the same quantity for the same money. */
  ghost predicate Balanced(st: SymbolState) {
    && SideBalances(st, BUY) && SideBalances(st, SELL)
    && Volume(st.log, BUY) == Volume(st.log, SELL)
    && TradedNotional(st.log, BUY) == TradedNotional(st.log, SELL)
  }

  lemma OpenQuantitySplit(s: seq<Order>, i: nat, x: Order)
    requires i < |s|
    ensures OpenQuantity(s) == OpenQuantity(RemoveAt(s, i)) + s[i].open
    ensures OpenQuantity(s[i := x]) == OpenQuantity(RemoveAt(s, i)) + x.open
  {
    OpenQuantityAppend(s[..i], s[i + 1..]);
    OpenQuantityParts(s, i);
    OpenQuantityParts(s[i := x], i);
    assert s[i := x][..i] == s[..i] && s[i := x][i + 1..] == s[i + 1..];
  }

  lemma OpenQuantityParts(s: seq<Order>, i: nat)
    requires i < |s|
    ensures OpenQuantity(s) == OpenQuantity(s[..i]) + s[i].open + OpenQuantity(s[i + 1..])
  {
    OpenQuantityAppend(s[..i], s[i..]);
    assert s[..i] + s[i..] == s;
    assert s[i..][1..] == s[i + 1..];
  }

  lemma EnteredSnoc(log: seq<Event>, e: Event, side: Side)
    ensures EnteredQuantity(log + [e], side)
         == EnteredQuantity(log, side) + if e.Entered? && e.order.side == side then e.order.quantity else 0
    ensures CancelledQuantity(log + [e], side)
         == CancelledQuantity(log, side)
            + if e.Sent? && e.report.kind == CANCELED && e.report.order.side == side then e.report.order.open else 0
  {
    assert (log + [e])[..|log|] == log;
  }

  /** A report takes out of the open quantity exactly what it says was traded or cancelled. */
  lemma AdvanceOpenQuantity(s: seq<Order>, i: nat, e: Event)
    requires i < |s| && NextReport(s[i], e)
    ensures OpenQuantity(Advanced(s, i, e)) == OpenQuantity(s)
         - if e.report.kind == CANCELED then e.report.order.open else e.report.order.lastQuantity
  {
    OpenQuantitySplit(s, i, e.report.order);
  }

  lemma AdvanceBalances(st: SymbolState, side: Side, i: nat, e: Event, any: Side)
    requires i < |st.book.On(side)| && NextReport(st.book.On(side)[i], e)
    requires SideBalances(st, any)
    ensures SideBalances(Advance(st, side, i, e), any)
  {
    VolumeSnoc(st.log, e, any);
    EnteredSnoc(st.log, e, any);
    assert e.report.order.side == side;
    if any == side {
      AdvanceOpenQuantity(st.book.On(side), i, e);
    }
  }

  lemma FillsPay(b: Book, any: Side)
    requires Crossed(b)
    ensures var q := TradeQuantity(b.bids[0], b.asks[0]) as real;
            Paid(Sent(FillReport(BidAfter(b))), any) + Paid(Sent(FillReport(AskAfter(b))), any) == b.asks[0].price * q
  {
    var bid, ask := BidAfter(b), AskAfter(b);
    assert bid.side == BUY && ask.side == SELL;
    assert bid.lastPrice == ask.lastPrice == b.asks[0].price;
    assert bid.lastQuantity == ask.lastQuantity == TradeQuantity(b.bids[0], b.asks[0]);
  }

  lemma TradeNotional(st: SymbolState, any: Side)
    requires Crossed(st.book)
    ensures TradedNotional(Trade(st).log, any)
         == TradedNotional(st.log, any)
             + st.book.asks[0].price * TradeQuantity(st.book.bids[0], st.book.asks[0]) as real
  {
    var bid, ask := Sent(FillReport(BidAfter(st.book))), Sent(FillReport(AskAfter(st.book)));
    assert Trade(st).log == (st.log + [bid]) + [ask];
    NotionalSnoc(st.log, bid, any);
    NotionalSnoc(st.log + [bid], ask, any);
    FillsPay(st.book, any);
  }

  lemma TradeSideBalances(st: SymbolState, any: Side)
    requires SideBalances(st, any) && Crossed(st.book)
    ensures SideBalances(Trade(st), any)
  {
    var bid, ask := Sent(FillReport(BidAfter(st.book))), Sent(FillReport(AskAfter(st.book)));
    TradeIsTwoAdvances(st);
    AdvanceBalances(st, BUY, 0, bid, any);
    AdvanceBalances(Advance(st, BUY, 0, bid), SELL, 0, ask, any);
  }

  lemma TradeBalances(st: SymbolState)
    requires Balanced(st) && Crossed(st.book)
    ensures Balanced(Trade(st))
  {
    TradeSideBalances(st, BUY);
    TradeSideBalances(st, SELL);
    TradeVolume(st, BUY);
    TradeVolume(st, SELL);
    TradeNotional(st, BUY);
    TradeNotional(st, SELL);
  }

  lemma {:induction false} MatchBalances(st: SymbolState)
    requires Balanced(st)
    ensures Balanced(MatchAll(st))
    decreases |st.book.bids| + |st.book.asks|
  {
    if Crossed(st.book) {
      TradeBalances(st);
      MatchBalances(Trade(st));
    }
  }

  lemma InsertAddsOpenQuantity(s: seq<Order>, o: Order)
    ensures OpenQuantity(InsertOn(s, o)) == OpenQuantity(s) + o.open
  {
    var p := UpperBound(s, Key(o));
    OpenQuantityParts(InsertOn(s, o), p);
    OpenQuantityAppend(s[..p], s[p..]);
    assert s[..p] + s[p..] == s;
    assert InsertOn(s, o)[..p] == s[..p] && InsertOn(s, o)[p + 1..] == s[p..];
  }

  lemma EnterSideBalances(st: SymbolState, o: FreshOrder, any: Side)
    requires SideBalances(st, any)
    ensures SideBalances(SymbolState(Insert(st.book, o), st.log + [Entered(o)]), any)
  {
    assert (st.log + [Entered(o)])[..|st.log|] == st.log;
    VolumeSnoc(st.log, Entered(o), any);
    InsertAddsOpenQuantity(st.book.On(o.side), o);
  }

  lemma EnterBalances(st: SymbolState, o: FreshOrder)
    requires Balanced(st)
    ensures Balanced(SymbolState(Insert(st.book, o), st.log + [Entered(o)]))
  {
    EnterSideBalances(st, o, BUY);
    EnterSideBalances(st, o, SELL);
    VolumeSnoc(st.log, Entered(o), BUY);
    VolumeSnoc(st.log, Entered(o), SELL);
    NotionalSnoc(st.log, Entered(o), BUY);
    NotionalSnoc(st.log, Entered(o), SELL);
  }

  lemma CancelBalances(st: SymbolState, t: Task)
    requires Balanced(st) && t.CancelTask? && CancelFinds(st.book, t)
    ensures Balanced(RunCancel(st, t))
  {
    var i := FindOn(st.book.On(t.side), t.owner, t.origID).value;
    var e := Sent(CancelReport(st.book.On(t.side)[i].Cancel()));
    CancelIsAdvance(st, t);
    AdvanceBalances(st, t.side, i, e, BUY);
    AdvanceBalances(st, t.side, i, e, SELL);
    CancelTradesNothing(st.log, e);
  }

  lemma CancelTradesNothing(log: seq<Event>, e: Event)
    requires e.Sent? && e.report.kind == CANCELED
    ensures forall side :: Volume(log + [e], side) == Volume(log, side)
    ensures forall side :: TradedNotional(log + [e], side) == TradedNotional(log, side)
  {
    forall side ensures Volume(log + [e], side) == Volume(log, side)
                     && TradedNotional(log + [e], side) == TradedNotional(log, side) {
      VolumeSnoc(log, e, side);
      NotionalSnoc(log, e, side);
    }
  }

  lemma ExecBalances(st: SymbolState, t: Task)
    requires Balanced(st)
    ensures Balanced(Exec(st, t))
  {
    if t.NewTask? {
      EnterBalances(st, t.order);
      MatchBalances(SymbolState(Insert(st.book, t.order), st.log + [Entered(t.order)]));
    } else if CancelFinds(st.book, t) {
      CancelBalances(st, t);
    }
  }

  /** The run-long ledger of one symbol. */
  lemma {:induction false} RunBalances(ts: seq<Task>)
    ensures Balanced(Run(ts))
  {
    if ts != [] {
      RunBalances(ts[..|ts| - 1]);
      ExecBalances(Run(ts[..|ts| - 1]), ts[|ts| - 1]);
    }
  }
}
