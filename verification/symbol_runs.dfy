/** One symbol's whole history: any sequence of new-order and cancel tasks run one after another. */
module SymbolRuns {
  import opened Orders
  import opened Books
  import opened Matching

  /** A cancel carries the owner, symbol and side of the request and the client's original order id. */
  datatype Task =
    | NewTask(order: FreshOrder)
    | CancelTask(owner: string, symbol: string, side: Side, origID: string)
  {
    function Symbol(): string { if NewTask? then order.symbol else symbol }
  }

  function RunNew(st: SymbolState, o: FreshOrder): SymbolState {
    MatchAll(SymbolState(Insert(st.book, o), st.log + [Entered(o)]))
  }

  predicate CancelFinds(b: Book, t: Task)
    requires t.CancelTask?
  {
    FindOn(b.On(t.side), t.owner, t.origID).Some?
  }

  /** Find, flag, report, erase; an unfound cancel changes nothing here (its task is submitted again). */
  function RunCancel(st: SymbolState, t: Task): SymbolState
    requires t.CancelTask?
  {
    match FindOn(st.book.On(t.side), t.owner, t.origID)
    case None => st
    case Some(i) =>
      SymbolState(CancelEntry(st.book, t.owner, t.origID, t.side, i),
                  st.log + [Sent(CancelReport(st.book.On(t.side)[i].Cancel()))])
  }

  function Exec(st: SymbolState, t: Task): SymbolState {
    match t
    case NewTask(o) => RunNew(st, o)
    case CancelTask(_, _, _, _) => RunCancel(st, t)
  }

  function Run(ts: seq<Task>): (st: SymbolState)
    ensures !Crossed(st.book)
  {
    if ts == [] then START
    else
      var st := Run(ts[..|ts| - 1]);
      ExecKeepsUncrossed(st, ts[|ts| - 1]);
      Exec(st, ts[|ts| - 1])
  }

  lemma RunSnoc(ts: seq<Task>, t: Task)
    ensures Run(ts + [t]) == Exec(Run(ts), t)
  {
    assert (ts + [t])[..|ts|] == ts;
  }

  lemma ExecKeepsUncrossed(st: SymbolState, t: Task)
    requires !Crossed(st.book)
    ensures !Crossed(Exec(st, t).book)
  {
    if t.CancelTask? && CancelFinds(st.book, t) {
      var found := FindOn(st.book.On(t.side), t.owner, t.origID);
      EraseRemovesFound(st.book, t.owner, t.origID, t.side, found.value);
    }
  }

  /** A cancel that finds an order removes exactly the entry it reports, the first on its side with both identifiers,
      and touches nothing else; one that finds none does so because no order on its side has both. */
  lemma CancelIsExact(st: SymbolState, t: Task)
    requires t.CancelTask?
    ensures var s := if t.side == BUY then st.book.bids else st.book.asks;
            CancelFinds(st.book, t) <==>
              exists k :: 0 <= k < |s| && s[k].owner == t.owner && s[k].clientID == t.origID
    ensures !CancelFinds(st.book, t) ==> RunCancel(st, t) == st
    ensures var s, r := if t.side == BUY then st.book.bids else st.book.asks, RunCancel(st, t);
            CancelFinds(st.book, t) ==>
              exists i :: && 0 <= i < |s| && s[i].owner == t.owner && s[i].clientID == t.origID
                          && (forall k :: 0 <= k < i ==> s[k].owner != t.owner || s[k].clientID != t.origID)
                          && r.log == st.log + [Sent(Report(s[i].(cancelled := true), CANCELED, "Order canceled"))]
                          && r.book == if t.side == BUY then RawBook(s[..i] + s[i + 1..], st.book.asks)
                                       else RawBook(st.book.bids, s[..i] + s[i + 1..])
  {
    var found := FindOn(st.book.On(t.side), t.owner, t.origID);
    if found.Some? {
      EraseRemovesFound(st.book, t.owner, t.origID, t.side, found.value);
    }
  }

  // ---------------------------------------------------------------- one report at a time

  function OrderOf(e: Event): Order { if e.Entered? then e.order else e.report.order }

  /** Prices a fill may use: an ask trades at its own limit, a bid at or below its limit. */
  predicate Acceptable(o: Order, tradePrice: real) {
    if o.side == SELL then tradePrice == o.price else tradePrice <= o.price
  }

  /** `e` is a legal next report for an order that stands as `o`: one fill, or its cancellation. */
  predicate NextReport(o: Order, e: Event) {
    && o.Resting() && e.Sent?
    && var r := e.report.order;
       || e.report == CancelReport(o.Cancel())
       || (&& 0 < r.lastQuantity <= o.open && Acceptable(o, r.lastPrice)
           && r == o.Execute(r.lastPrice, r.lastQuantity) && e.report == FillReport(r))
  }

  /** Entry `i` of `side` gets the report `e`: it leaves the book if the report is terminal. */
  function Advance(st: SymbolState, side: Side, i: nat, e: Event): SymbolState
    requires i < |st.book.On(side)| && NextReport(st.book.On(side)[i], e)
  {
    AdvanceKeepsSide(st.book.On(side), side, i, e);
    SymbolState(st.book.With(side, Advanced(st.book.On(side), i, e)), st.log + [e])
  }

  function Advanced(s: seq<Order>, i: nat, e: Event): seq<Order>
    requires i < |s| && e.Sent?
  {
    if e.report.IsTerminal() then RemoveAt(s, i) else s[i := e.report.order]
  }

  lemma AdvanceKeepsSide(s: seq<Order>, side: Side, i: nat, e: Event)
    requires SideOk(s, side) && i < |s| && NextReport(s[i], e)
    ensures SideOk(Advanced(s, i, e), side)
  {
    if e.report.IsTerminal() {
      RemoveKeepsSide(s, side, i);
    } else {
      PartialFillRests(s[i], e);
    }
  }

  lemma PartialFillRests(o: Order, e: Event)
    requires NextReport(o, e) && !e.report.IsTerminal()
    ensures e.report.order.Resting() && e.report.order.SameIdentity(o)
  {
  }

  /** Every trade is an advance of the best bid followed by an advance of the best ask. */
  lemma TradeIsTwoAdvances(st: SymbolState)
    requires Crossed(st.book)
    ensures var bid, ask := Sent(FillReport(BidAfter(st.book))), Sent(FillReport(AskAfter(st.book)));
            && NextReport(st.book.bids[0], bid)
            && NextReport(Advance(st, BUY, 0, bid).book.asks[0], ask)
            && Trade(st) == Advance(Advance(st, BUY, 0, bid), SELL, 0, ask)
  {
    var bid, ask := Sent(FillReport(BidAfter(st.book))), Sent(FillReport(AskAfter(st.book)));
    ReplaceBestIsUpdate(st.book.bids, BidAfter(st.book));
    ReplaceBestIsUpdate(st.book.asks, AskAfter(st.book));
    assert st.log + [bid] + [ask] == st.log + [bid, ask];
  }

  lemma ReplaceBestIsUpdate(s: seq<Order>, o: Order)
    requires s != []
    ensures ReplaceBest(s, o) == if o.IsFilled() then RemoveAt(s, 0) else s[0 := o]
  {
  }

  lemma CancelIsAdvance(st: SymbolState, t: Task)
    requires t.CancelTask? && CancelFinds(st.book, t)
    ensures var i := FindOn(st.book.On(t.side), t.owner, t.origID).value;
            var e := Sent(CancelReport(st.book.On(t.side)[i].Cancel()));
            RunCancel(st, t) == Advance(st, t.side, i, e)
  {
    var i := FindOn(st.book.On(t.side), t.owner, t.origID).value;
    EraseRemovesFound(st.book, t.owner, t.origID, t.side, i);
  }
}
