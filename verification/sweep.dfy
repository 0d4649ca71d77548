/** On an uncrossed book, inserting an order and running the matching loop is one sweep of that order
    through the opposite side. */
module Sweep {
  import opened Orders
  import opened Books
  import opened Matching

  function Opposite(side: Side): Side { if side == BUY then SELL else BUY }

  /** Prices meet: the bid's limit is at or above the ask's. */
  predicate Meets(o: Order, x: Order) { if o.side == BUY then o.price >= x.price else x.price >= o.price }

  function AskPrice(o: Order, x: Order): real { if o.side == BUY then x.price else o.price }

  function TakenFrom(o: Order, x: Order): int { if o.open > x.open then x.open else o.open }

  function TakerAfter(o: Order, x: Order): (r: Order)
    requires o.Resting() && x.Resting()
  {
    o.Execute(AskPrice(o, x), TakenFrom(o, x))
  }

  function MakerAfter(o: Order, x: Order): Order
    requires o.Resting() && x.Resting()
  {
    x.Execute(AskPrice(o, x), TakenFrom(o, x))
  }

  function TradeEvents(o: Order, x: Order): seq<Event>
    requires o.Resting() && x.Resting()
  {
    var taker, maker := Sent(FillReport(TakerAfter(o, x))), Sent(FillReport(MakerAfter(o, x)));
    if o.side == BUY then [taker, maker] else [maker, taker]
  }

  /** The order after sweeping, what is left of the opposite side, and the reports sent. */
  datatype Swept = Swept(taker: Order, opposite: seq<Order>, sent: seq<Event>)

  /** The simple form: `o` walks down the opposite side until it is filled or no price meets its limit. */
  function SweepThrough(o: Order, opposite: seq<Order>): Swept
    requires SideOk(opposite, Opposite(o.side)) && o.Resting()
    decreases |opposite|
  {
    if opposite == [] || !Meets(o, opposite[0]) then Swept(o, opposite, [])
    else
      var x := opposite[0];
      if TakerAfter(o, x).IsFilled() then
        Swept(TakerAfter(o, x), ReplaceBest(opposite, MakerAfter(o, x)), TradeEvents(o, x))
      else
        var rest := SweepThrough(TakerAfter(o, x), opposite[1..]);
        rest.(sent := TradeEvents(o, x) + rest.sent)
  }

  /** The book that holds `own` on the taker's side and `opposite` on the other. */
  function Pair(side: Side, own: seq<Order>, opposite: seq<Order>): RawBook {
    if side == BUY then RawBook(own, opposite) else RawBook(opposite, own)
  }

  /** What the matching loop should leave: the taker rests only if something of it is still open. */
  function AfterSweep(side: Side, own: seq<Order>, r: Swept): RawBook {
    Pair(side, if r.taker.IsFilled() then own else InsertOn(own, r.taker), r.opposite)
  }

  ghost predicate Uncrossed(own: seq<Order>, opposite: seq<Order>) {
    own == [] || opposite == [] || !Meets(own[0], opposite[0])
  }

  /** The taker stands at the top of its own side, strictly better than the rest of it. */
  ghost predicate OnTop(o: Order, own: seq<Order>, opposite: seq<Order>) {
    && o.Resting() && SideOk(own, o.side) && SideOk(opposite, Opposite(o.side))
    && UpperBound(own, Key(o)) == 0 && Uncrossed(own, opposite)
  }

  lemma SuffixKeepsSide(s: seq<Order>, side: Side)
    requires SideOk(s, side) && s != []
    ensures SideOk(s[1..], side)
    ensures |s| > 1 ==> s[1..][0] == s[1] && Key(s[0]) <= Key(s[1])
  {
    var r := s[1..];
    assert forall i :: 0 <= i < |r| ==> r[i] == s[i + 1];
  }

  lemma TopIsBook(o: Order, own: seq<Order>, opposite: seq<Order>) returns (b: Book)
    requires OnTop(o, own, opposite)
    ensures b == Pair(o.side, [o] + own, opposite)
    ensures InsertOn(own, o) == [o] + own
    ensures Crossed(b) <==> opposite != [] && Meets(o, opposite[0])
  {
    InsertKeepsSide(own, o);
    assert own[..0] + [o] + own[0..] == [o] + own;
    b := Pair(o.side, [o] + own, opposite);
  }

  /** One matching iteration with the taker on top. */
  lemma TopTrade(o: Order, own: seq<Order>, opposite: seq<Order>, b: Book, log: seq<Event>)
    requires OnTop(o, own, opposite) && b == Pair(o.side, [o] + own, opposite) && Crossed(b)
    ensures var x := opposite[0]; var taker := TakerAfter(o, x); var next := Trade(SymbolState(b, log));
            && next.log == log + TradeEvents(o, x)
            && next.book == Pair(o.side, if taker.IsFilled() then own else [taker] + own,
                                 ReplaceBest(opposite, MakerAfter(o, x)))
  {
    assert ([o] + own)[1..] == own;
  }

  lemma FilledLeavesUncrossed(o: Order, own: seq<Order>, opposite: seq<Order>)
    requires OnTop(o, own, opposite) && opposite != []
    ensures Uncrossed(own, ReplaceBest(opposite, MakerAfter(o, opposite[0])))
  {
    SuffixKeepsSide(opposite, Opposite(o.side));
  }

  lemma StaysOnTop(o: Order, own: seq<Order>, opposite: seq<Order>)
    requires OnTop(o, own, opposite) && opposite != [] && !TakerAfter(o, opposite[0]).IsFilled()
    ensures OnTop(TakerAfter(o, opposite[0]), own, opposite[1..])
    ensures ReplaceBest(opposite, MakerAfter(o, opposite[0])) == opposite[1..]
  {
    SuffixKeepsSide(opposite, Opposite(o.side));
  }

  ghost predicate LoopIsSweep(o: Order, own: seq<Order>, opposite: seq<Order>, log: seq<Event>, m: SymbolState)
    requires SideOk(opposite, Opposite(o.side)) && o.Resting()
  {
    var r := SweepThrough(o, opposite);
    m.book == AfterSweep(o.side, own, r) && m.log == log + r.sent
  }

  lemma TopOrderFills(o: Order, own: seq<Order>, opposite: seq<Order>, b: Book, log: seq<Event>)
    requires OnTop(o, own, opposite) && b == Pair(o.side, [o] + own, opposite) && Crossed(b)
    requires TakerAfter(o, opposite[0]).IsFilled()
    ensures LoopIsSweep(o, own, opposite, log, MatchAll(SymbolState(b, log)))
  {
    TopTrade(o, own, opposite, b, log);
    FilledLeavesUncrossed(o, own, opposite);
    assert !Crossed(Trade(SymbolState(b, log)).book);
  }

  lemma TopOrderContinues(o: Order, own: seq<Order>, opposite: seq<Order>, log: seq<Event>, m: SymbolState)
    requires OnTop(o, own, opposite) && opposite != [] && Meets(o, opposite[0])
    requires !TakerAfter(o, opposite[0]).IsFilled() && SideOk(opposite[1..], Opposite(o.side))
    requires LoopIsSweep(TakerAfter(o, opposite[0]), own, opposite[1..], log + TradeEvents(o, opposite[0]), m)
    ensures LoopIsSweep(o, own, opposite, log, m)
  {
    var rest := SweepThrough(TakerAfter(o, opposite[0]), opposite[1..]);
    assert (log + TradeEvents(o, opposite[0])) + rest.sent == log + (TradeEvents(o, opposite[0]) + rest.sent);
  }

  /** The taker at the top of its own side: the loop and the sweep take the same steps. */
  lemma {:induction false} TopOrderSweeps(o: Order, own: seq<Order>, opposite: seq<Order>, b: Book, log: seq<Event>)
    requires OnTop(o, own, opposite) && b == Pair(o.side, [o] + own, opposite)
    ensures LoopIsSweep(o, own, opposite, log, MatchAll(SymbolState(b, log)))
    decreases |opposite|
  {
    var same := TopIsBook(o, own, opposite);
    if !Crossed(b) {
      assert log + [] == log;
    } else if TakerAfter(o, opposite[0]).IsFilled() {
      TopOrderFills(o, own, opposite, b, log);
    } else {
      var next := Trade(SymbolState(b, log));
      TopTrade(o, own, opposite, b, log);
      StaysOnTop(o, own, opposite);
      TopOrderSweeps(TakerAfter(o, opposite[0]), own, opposite[1..], next.book, next.log);
      TopOrderContinues(o, own, opposite, log, MatchAll(next));
    }
  }

  /** Insertion followed by the matching loop is the one-order sweep. */
  lemma InsertAndMatchIsSweep(b: Book, o: Order, log: seq<Event>)
    requires o.Resting() && !Crossed(b)
    ensures var r := SweepThrough(o, b.On(Opposite(o.side))); var m := MatchAll(SymbolState(Insert(b, o), log));
            m.book == AfterSweep(o.side, b.On(o.side), r) && m.log == log + r.sent
  {
    var own, opposite := b.On(o.side), b.On(Opposite(o.side));
    if UpperBound(own, Key(o)) == 0 {
      var same := TopIsBook(o, own, opposite);
      TopOrderSweeps(o, own, opposite, Insert(b, o), log);
    } else {
      assert InsertOn(own, o)[0] == own[0];
      assert opposite == [] || !Meets(o, opposite[0]);
      assert log + [] == log;
    }
  }

  // ---------------------------------------------------------------- the shape of a sweep

  /** How many orders of the opposite side the sweep consumes whole. */
  function Depth(o: Order, opposite: seq<Order>): (k: nat)
    requires SideOk(opposite, Opposite(o.side)) && o.Resting()
    ensures k <= |opposite|
    decreases |opposite|
  {
    if opposite == [] || !Meets(o, opposite[0]) then 0
    else
      var x := opposite[0];
      if TakerAfter(o, x).IsFilled() then (if MakerAfter(o, x).IsFilled() then 1 else 0)
      else 1 + Depth(TakerAfter(o, x), opposite[1..])
  }

  /** `s` without its first `k` orders, or the same with the next one partly filled. */
  ghost predicate LosesPrefix(s: seq<Order>, r: seq<Order>, k: nat) {
    k <= |s| && (r == s[k..] || PartlyFillsNext(s, r, k))
  }

  ghost predicate PartlyFillsNext(s: seq<Order>, r: seq<Order>, k: nat) {
    k < |s| && r != [] && r[1..] == s[k + 1..] && r[0].SameIdentity(s[k]) && 0 < r[0].open < s[k].open
  }

  /** The opposite side loses exactly a prefix, all of it within the limit; a partly filled order follows only
      when the taker is filled; an open taker stops only at a price beyond its limit. */
  ghost predicate ConsumesPrefix(o: Order, opposite: seq<Order>, r: Swept, k: nat) {
    && LosesPrefix(opposite, r.opposite, k)
    && (r.opposite != opposite[k..] ==> r.taker.IsFilled() && k < |opposite| && Meets(o, opposite[k]))
    && (forall i :: 0 <= i < k ==> Meets(o, opposite[i]))
    && (!r.taker.IsFilled() && k < |opposite| ==> !Meets(o, opposite[k]))
  }

  lemma {:induction false} SweepConsumesPrefix(o: Order, opposite: seq<Order>)
    requires SideOk(opposite, Opposite(o.side)) && o.Resting()
    ensures ConsumesPrefix(o, opposite, SweepThrough(o, opposite), Depth(o, opposite))
    decreases |opposite|
  {
    if opposite != [] && Meets(o, opposite[0]) {
      var x := opposite[0];
      if !TakerAfter(o, x).IsFilled() {
        SuffixKeepsSide(opposite, Opposite(o.side));
        SweepConsumesPrefix(TakerAfter(o, x), opposite[1..]);
        PrefixGrows(o, TakerAfter(o, x), opposite, SweepThrough(TakerAfter(o, x), opposite[1..]),
                    Depth(TakerAfter(o, x), opposite[1..]));
      } else if !MakerAfter(o, x).IsFilled() {
        assert ([MakerAfter(o, x)] + opposite[1..])[1..] == opposite[1..];
      }
    }
  }

  lemma PrefixGrows(o: Order, taker: Order, opposite: seq<Order>, rest: Swept, k: nat)
    requires opposite != [] && Meets(o, opposite[0]) && taker.SameIdentity(o)
    requires ConsumesPrefix(taker, opposite[1..], rest, k)
    ensures forall r: Swept :: r.taker == rest.taker && r.opposite == rest.opposite ==>
        ConsumesPrefix(o, opposite, r, k + 1)
  {
    var tail := opposite[1..];
    assert tail[k..] == opposite[k + 1..];
    assert forall i :: 0 <= i < |tail| ==> tail[i] == opposite[i + 1];
    if k < |tail| {
      assert tail[k + 1..] == opposite[k + 2..];
    }
    forall i | 0 <= i < k + 1 ensures Meets(o, opposite[i]) {
      assert i == 0 || Meets(taker, tail[i - 1]);
    }
  }

  /** Every trade has the taker on one side of it: its reports are every second one, bids first. */
  ghost predicate TakerInEveryTrade(o: Order, sent: seq<Event>) {
    && |sent| % 2 == 0
    && forall i :: 0 <= i < |sent| && i % 2 == (if o.side == BUY then 0 else 1) ==> IsFillOf(sent[i], o)
  }

  ghost predicate IsFillOf(e: Event, o: Order) {
    e.Sent? && e.report.IsFill() && e.report.order.SameIdentity(o)
  }

  lemma {:induction false} TakerTradesAlways(o: Order, opposite: seq<Order>)
    requires SideOk(opposite, Opposite(o.side)) && o.Resting()
    ensures var r := SweepThrough(o, opposite);
            TakerInEveryTrade(o, r.sent) && r.taker.SameIdentity(o)
    decreases |opposite|
  {
    if opposite != [] && Meets(o, opposite[0]) {
      var x := opposite[0];
      if !TakerAfter(o, x).IsFilled() {
        SuffixKeepsSide(opposite, Opposite(o.side));
        TakerTradesAlways(TakerAfter(o, x), opposite[1..]);
        TakerPrepended(o, TradeEvents(o, x), SweepThrough(TakerAfter(o, x), opposite[1..]).sent);
      }
    }
  }

  lemma TakerPrepended(o: Order, two: seq<Event>, rest: seq<Event>)
    requires |two| == 2 && TakerInEveryTrade(o, two) && TakerInEveryTrade(o, rest)
    ensures TakerInEveryTrade(o, two + rest)
  {
    forall i | 2 <= i < |two + rest| && i % 2 == (if o.side == BUY then 0 else 1)
      ensures IsFillOf((two + rest)[i], o)
    {
      assert (two + rest)[i] == rest[i - 2] && (i - 2) % 2 == i % 2;
    }
  }

  /** What the taker gained the opposite side lost. */
  lemma {:induction false} SweepConserves(o: Order, opposite: seq<Order>)
    requires SideOk(opposite, Opposite(o.side)) && o.Resting()
    ensures var r := SweepThrough(o, opposite);
            o.open - r.taker.open == OpenQuantity(opposite) - OpenQuantity(r.opposite)
    decreases |opposite|
  {
    if opposite != [] && Meets(o, opposite[0]) {
      var x := opposite[0];
      if !TakerAfter(o, x).IsFilled() {
        SuffixKeepsSide(opposite, Opposite(o.side));
        SweepConserves(TakerAfter(o, x), opposite[1..]);
      } else if !MakerAfter(o, x).IsFilled() {
        assert ([MakerAfter(o, x)] + opposite[1..])[1..] == opposite[1..];
      }
    }
  }

  /** The sweep theorem, stated about the engine: on an uncrossed book a new order leaves the others on its own
      side alone, takes a prefix of the opposite side, and is a party to every trade. */
  lemma NewOrderOnlySweeps(b: Book, o: Order)
    requires o.Resting() && !Crossed(b)
    ensures var other := Opposite(o.side);
            var m := MatchAll(SymbolState(Insert(b, o), []));
            var r := SweepThrough(o, b.On(other));
            && TakerInEveryTrade(o, m.log)
            && ConsumesPrefix(o, b.On(other), r.(opposite := m.book.On(other)), Depth(o, b.On(other)))
            && m.book.On(o.side) == (if r.taker.IsFilled() then b.On(o.side) else InsertOn(b.On(o.side), r.taker))
            && r.taker.SameIdentity(o)
            && o.open - r.taker.open == OpenQuantity(b.On(other)) - OpenQuantity(m.book.On(other))
  {
    var other := Opposite(o.side);
    var opposite := b.On(other);
    InsertAndMatchIsSweep(b, o, []);
    assert [] + SweepThrough(o, opposite).sent == SweepThrough(o, opposite).sent;
    SweepConsumesPrefix(o, opposite);
    TakerTradesAlways(o, opposite);
    SweepConserves(o, opposite);
  }
}
