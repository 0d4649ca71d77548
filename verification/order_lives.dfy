/** What every run keeps about each single order: the book holds exactly the latest state of the orders whose
    life is not over, and each order's events form a legal life. */
module OrderLives {
  import opened Filters
  import opened Orders
  import opened Books
  import opened Matching
  import opened SymbolRuns

  function About(n: nat): Event -> bool { (e: Event) => OrderOf(e).arrival == n }

  /** The events about arrival number `n`. */
  function Of(log: seq<Event>, n: nat): seq<Event> { Filter(log, About(n)) }

  lemma OfSnoc(log: seq<Event>, e: Event, n: nat)
    ensures Of(log + [e], n) == if OrderOf(e).arrival == n then Of(log, n) + [e] else Of(log, n)
  {
    FilterSnoc(log, e, About(n));
  }

  lemma OfMembers(log: seq<Event>, n: nat)
    ensures forall e :: e in Of(log, n) ==> e in log && OrderOf(e).arrival == n
    ensures forall e :: e in log && OrderOf(e).arrival == n ==> e in Of(log, n)
  {
    FilterMembers(log, About(n));
  }

  predicate StillOpen(e: Event) { e.Entered? || e.report.kind == PARTIALLY_FILLED }

  /** An order's events: it enters fresh, then each event is a legal next report until one is terminal. */
  predicate LifeOk(life: seq<Event>) {
    life == []
    || (|life| == 1 && life[0].Entered? && life[0].order.Fresh())
    || (|life| > 1 && LifeOk(life[..|life| - 1]) && StillOpen(life[|life| - 2])
        && NextReport(OrderOf(life[|life| - 2]), life[|life| - 1]))
  }

  predicate Alive(life: seq<Event>) { life != [] && StillOpen(life[|life| - 1]) }

  function Latest(life: seq<Event>): Order
    requires life != []
  {
    OrderOf(life[|life| - 1])
  }

  /** The book holds exactly the latest state of every order whose life is not over, in strict priority. */
  ghost predicate Lives(st: SymbolState) {
    && TimeOrdered(st.book.bids) && TimeOrdered(st.book.asks)
    && (forall n: nat :: LifeOk(Of(st.log, n)))
    && (forall side, o :: o in st.book.On(side) ==> Alive(Of(st.log, o.arrival)) && Latest(Of(st.log, o.arrival)) == o)
    && (forall n: nat :: Alive(Of(st.log, n)) ==>
          Latest(Of(st.log, n)).arrival == n && Latest(Of(st.log, n)) in st.book.On(Latest(Of(st.log, n)).side))
  }

  lemma {:induction false} LifeGrows(life: seq<Event>, e: Event)
    requires LifeOk(life) && Alive(life) && NextReport(Latest(life), e)
    ensures LifeOk(life + [e])
  {
    assert (life + [e])[..|life|] == life;
  }

  lemma AdvanceKeepsTimeOrder(st: SymbolState, side: Side, i: nat, e: Event)
    requires TimeOrdered(st.book.bids) && TimeOrdered(st.book.asks)
    requires i < |st.book.On(side)| && NextReport(st.book.On(side)[i], e)
    ensures var r := Advance(st, side, i, e).book; TimeOrdered(r.bids) && TimeOrdered(r.asks)
  {
    var s := st.book.On(side);
    assert TimeOrdered(s);
    assert TimeOrdered(Advance(st, side, i, e).book.On(side));
    var other := if side == BUY then SELL else BUY;
    assert Advance(st, side, i, e).book.On(other) == st.book.On(other);
  }

  lemma DistinctArrivals(st: SymbolState, side: Side, i: nat, k: nat)
    requires Lives(st) && i < |st.book.On(side)| && k < |st.book.On(side)| && i != k
    ensures st.book.On(side)[i].arrival != st.book.On(side)[k].arrival
  {
    var s := st.book.On(side);
    assert s[i] in s && s[k] in s;
    assert TimeOrdered(s);
    assert Ahead(s[i], s[k]) || Ahead(s[k], s[i]);
  }

  /** After removing or updating entry `i`, every other entry is still there and nothing else appears. */
  lemma AdvanceMembers(st: SymbolState, side: Side, i: nat, e: Event, o: Order)
    requires Lives(st) && i < |st.book.On(side)| && NextReport(st.book.On(side)[i], e)
    ensures var s := st.book.On(side); var s' := Advance(st, side, i, e).book.On(side);
            o in s' <==> (!e.report.IsTerminal() && o == e.report.order) || (o in s && o.arrival != s[i].arrival)
  {
    var s := st.book.On(side);
    forall k | 0 <= k < |s| && k != i ensures s[k].arrival != s[i].arrival {
      DistinctArrivals(st, side, i, k);
    }
    UpdatedMembers(s, i, e, o);
  }

  lemma UpdatedMembers(s: seq<Order>, i: nat, e: Event, o: Order)
    requires i < |s| && e.Sent? && forall k :: 0 <= k < |s| && k != i ==> s[k].arrival != s[i].arrival
    ensures o in Advanced(s, i, e)
       <==> (!e.report.IsTerminal() && o == e.report.order) || (o in s && o.arrival != s[i].arrival)
  {
    var rest := s[..i] + s[i + 1..];
    assert s == s[..i] + [s[i]] + s[i + 1..];
    assert o in s && o.arrival != s[i].arrival <==> o in rest by {
      assert forall k :: 0 <= k < |rest| ==> rest[k] == s[if k < i then k else k + 1];
    }
    if !e.report.IsTerminal() {
      assert Advanced(s, i, e) == s[..i] + [e.report.order] + s[i + 1..];
    }
  }

  ghost predicate Agrees(st: SymbolState, side: Side, o: Order) {
    o in st.book.On(side) ==> Alive(Of(st.log, o.arrival)) && Latest(Of(st.log, o.arrival)) == o
  }

  ghost predicate Held(st: SymbolState, n: nat) {
    Alive(Of(st.log, n)) ==>
      Latest(Of(st.log, n)).arrival == n && Latest(Of(st.log, n)) in st.book.On(Latest(Of(st.log, n)).side)
  }

  lemma AdvanceAgrees(st: SymbolState, side: Side, i: nat, e: Event, other: Side, x: Order)
    requires Lives(st) && i < |st.book.On(side)| && NextReport(st.book.On(side)[i], e)
    ensures Agrees(Advance(st, side, i, e), other, x)
  {
    var o, r := st.book.On(side)[i], Advance(st, side, i, e);
    assert o in st.book.On(side);
    OfSnoc(st.log, e, x.arrival);
    if other != side {
      assert r.book.On(other) == st.book.On(other);
      if x in st.book.On(other) {
        assert x != o;
        assert Of(r.log, x.arrival) == Of(st.log, x.arrival);
      }
    } else {
      AdvanceMembers(st, side, i, e, x);
      assert x in st.book.On(side) && x.arrival != o.arrival ==> Of(r.log, x.arrival) == Of(st.log, x.arrival);
    }
  }

  lemma AdvanceHeldSelf(st: SymbolState, side: Side, i: nat, e: Event)
    requires Lives(st) && i < |st.book.On(side)| && NextReport(st.book.On(side)[i], e)
    ensures var n := st.book.On(side)[i].arrival;
            Held(Advance(st, side, i, e), n) && LifeOk(Of(Advance(st, side, i, e).log, n))
  {
    var o := st.book.On(side)[i];
    assert o in st.book.On(side);
    OfSnoc(st.log, e, o.arrival);
    LifeGrows(Of(st.log, o.arrival), e);
    AdvanceMembers(st, side, i, e, e.report.order);
  }

  lemma AdvanceHeldOther(st: SymbolState, side: Side, i: nat, e: Event, n: nat)
    requires Lives(st) && i < |st.book.On(side)| && NextReport(st.book.On(side)[i], e)
    requires n != st.book.On(side)[i].arrival
    ensures Held(Advance(st, side, i, e), n) && LifeOk(Of(Advance(st, side, i, e).log, n))
  {
    OfSnoc(st.log, e, n);
    assert Of(Advance(st, side, i, e).log, n) == Of(st.log, n);
    if Alive(Of(st.log, n)) {
      AdvanceMembers(st, side, i, e, Latest(Of(st.log, n)));
    }
  }

  lemma AdvanceKeepsLives(st: SymbolState, side: Side, i: nat, e: Event)
    requires Lives(st) && i < |st.book.On(side)| && NextReport(st.book.On(side)[i], e)
    ensures Lives(Advance(st, side, i, e))
  {
    var r := Advance(st, side, i, e);
    AdvanceKeepsTimeOrder(st, side, i, e);
    forall n: nat ensures LifeOk(Of(r.log, n)) && Held(r, n) {
      if n == st.book.On(side)[i].arrival {
        AdvanceHeldSelf(st, side, i, e);
      } else {
        AdvanceHeldOther(st, side, i, e, n);
      }
    }
    forall other, x | x in r.book.On(other) ensures Alive(Of(r.log, x.arrival)) && Latest(Of(r.log, x.arrival)) == x {
      AdvanceAgrees(st, side, i, e, other, x);
      assert Agrees(r, other, x);
    }
    assert forall n: nat :: Alive(Of(r.log, n)) ==> Held(r, n);
  }

  // ---------------------------------------------------------------- entering

  /** Every event so far is about an earlier arrival than `n`. */
  ghost predicate Below(log: seq<Event>, n: nat) {
    forall e :: e in log ==> OrderOf(e).arrival < n
  }

  function Enter(st: SymbolState, o: FreshOrder): SymbolState {
    SymbolState(Insert(st.book, o), st.log + [Entered(o)])
  }

  lemma EnterKeepsTimeOrder(st: SymbolState, o: FreshOrder)
    requires Lives(st) && Below(st.log, o.arrival)
    ensures TimeOrdered(Insert(st.book, o).bids) && TimeOrdered(Insert(st.book, o).asks)
  {
    var s := st.book.On(o.side);
    forall k | 0 <= k < |s| ensures s[k].arrival < o.arrival {
      assert s[k] in s;
      OfMembers(st.log, s[k].arrival);
      var life := Of(st.log, s[k].arrival);
      assert life[|life| - 1] in life;
    }
    InsertKeepsTimeOrder(s, o);
  }

  lemma NothingYet(log: seq<Event>, n: nat)
    requires Below(log, n)
    ensures Of(log, n) == []
  {
    FilterMembers(log, About(n));
  }

  lemma EnterHeld(st: SymbolState, o: FreshOrder, n: nat)
    requires Lives(st) && Below(st.log, o.arrival)
    ensures Held(Enter(st, o), n) && LifeOk(Of(Enter(st, o).log, n))
  {
    NothingYet(st.log, o.arrival);
    OfSnoc(st.log, Entered(o), n);
    if n == o.arrival {
      assert Of(Enter(st, o).log, n) == [Entered(o)];
      InsertOnMembers(st.book.On(o.side), o, o);
    } else {
      assert Of(Enter(st, o).log, n) == Of(st.log, n);
      if Alive(Of(st.log, n)) {
        InsertOnMembers(st.book.On(o.side), o, Latest(Of(st.log, n)));
      }
    }
  }

  lemma EnterAgrees(st: SymbolState, o: FreshOrder, other: Side, x: Order)
    requires Lives(st) && Below(st.log, o.arrival)
    ensures Agrees(Enter(st, o), other, x)
  {
    NothingYet(st.log, o.arrival);
    OfSnoc(st.log, Entered(o), x.arrival);
    InsertOnMembers(st.book.On(o.side), o, x);
  }

  lemma EnterKeepsLives(st: SymbolState, o: FreshOrder)
    requires Lives(st) && Below(st.log, o.arrival)
    ensures Lives(Enter(st, o))
  {
    var r := Enter(st, o);
    EnterKeepsTimeOrder(st, o);
    forall n: nat ensures LifeOk(Of(r.log, n)) && Held(r, n) {
      EnterHeld(st, o, n);
    }
    forall other, x | x in r.book.On(other) ensures Alive(Of(r.log, x.arrival)) && Latest(Of(r.log, x.arrival)) == x {
      EnterAgrees(st, o, other, x);
      assert Agrees(r, other, x);
    }
    assert forall n: nat :: Alive(Of(r.log, n)) ==> Held(r, n);
  }

  lemma AdvanceKeepsBelow(st: SymbolState, side: Side, i: nat, e: Event, n: nat)
    requires Lives(st) && Below(st.log, n) && i < |st.book.On(side)| && NextReport(st.book.On(side)[i], e)
    ensures Below(Advance(st, side, i, e).log, n)
  {
    var o := st.book.On(side)[i];
    assert o in st.book.On(side);
    OfMembers(st.log, o.arrival);
    var life := Of(st.log, o.arrival);
    assert life[|life| - 1] in life;
  }
}
