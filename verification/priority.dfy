/** Price-time priority over a symbol's whole log. */
module Priority {
  import opened Orders
  import opened Books
  import opened Matching
  import opened SymbolRuns
  import opened OrderLives

  predicate IsTerminalFor(e: Event, n: nat) { e.Sent? && e.report.IsTerminal() && e.report.order.arrival == n }

  /** `y` entered, is on the same side and comes before `x` in price-time priority. */
  predicate Outranks(y: Event, x: Event) {
    y.Entered? && x.Sent? && x.report.IsFill() && y.order.side == x.report.order.side && Ahead(y.order, x.report.order)
  }

  ghost predicate EndedBefore(log: seq<Event>, k: nat, n: nat)
    requires k <= |log|
  {
    exists j :: 0 <= j < k && IsTerminalFor(log[j], n)
  }

  /** No order is filled while one that entered earlier, and outranks it, is still open. */
  ghost predicate PriorityRespected(log: seq<Event>) {
    forall i, k :: 0 <= i < k < |log| && Outranks(log[i], log[k]) ==> EndedBefore(log, k, log[i].order.arrival)
  }

  lemma {:induction false} LifeKeepsIdentity(life: seq<Event>)
    requires LifeOk(life) && life != []
    ensures life[0].Entered?
    ensures forall k :: 0 < k < |life| ==> life[k].Sent?
    ensures forall k :: 0 <= k < |life| ==> OrderOf(life[k]).SameIdentity(life[0].order)
  {
    if |life| > 1 {
      LifeKeepsIdentity(life[..|life| - 1]);
    }
  }

  /** Every order that entered is either still in the book, in its latest state, or has had its terminal report. */
  lemma EnteredOrderHasAFate(st: SymbolState, y: Order)
    requires Lives(st) && Entered(y) in st.log
    ensures Alive(Of(st.log, y.arrival)) ==>
              Latest(Of(st.log, y.arrival)) in st.book.On(y.side) && Latest(Of(st.log, y.arrival)).SameIdentity(y)
    ensures !Alive(Of(st.log, y.arrival)) ==> EndedBefore(st.log, |st.log|, y.arrival)
  {
    var life := Of(st.log, y.arrival);
    OfMembers(st.log, y.arrival);
    assert Entered(y) in life;
    LifeKeepsIdentity(life);
    assert life[0] == Entered(y);
    assert LifeOk(life);
    assert life[|life| - 1] in life;
    if !Alive(life) {
      assert Ended(life[|life| - 1]);
      var j :| 0 <= j < |st.log| && st.log[j] == life[|life| - 1];
      assert IsTerminalFor(st.log[j], y.arrival);
    }
  }

  predicate Ended(e: Event) { e.Sent? && e.report.IsTerminal() }

  lemma BestIsUnbeaten(st: SymbolState, side: Side, e: Event, y: Order)
    requires Lives(st) && st.book.On(side) != [] && NextReport(st.book.On(side)[0], e)
    requires Entered(y) in st.log && Outranks(Entered(y), e)
    ensures EndedBefore(st.log, |st.log|, y.arrival)
  {
    EnteredOrderHasAFate(st, y);
    var s := st.book.On(side);
    assert TimeOrdered(s);
    forall x | x in s ensures !Ahead(x, s[0]) {
      var m :| 0 <= m < |s| && s[m] == x;
      assert m == 0 || Ahead(s[0], s[m]);
    }
  }

  lemma EndedStays(log: seq<Event>, e: Event, k: nat, n: nat)
    requires k <= |log| && EndedBefore(log, k, n)
    ensures EndedBefore(log + [e], k, n)
  {
    var j :| 0 <= j < k && IsTerminalFor(log[j], n);
    assert IsTerminalFor((log + [e])[j], n);
  }

  /** Appending `e` respects priority if everything that outranks it has ended. */
  lemma AppendRespectsPriority(log: seq<Event>, e: Event)
    requires PriorityRespected(log)
    requires forall a :: 0 <= a < |log| && Outranks(log[a], e) ==> EndedBefore(log, |log|, log[a].order.arrival)
    ensures PriorityRespected(log + [e])
  {
    forall a, k | 0 <= a < k < |log + [e]| && Outranks((log + [e])[a], (log + [e])[k])
      ensures EndedBefore(log + [e], k, (log + [e])[a].order.arrival)
    {
      assert (log + [e])[a] == log[a];
      EndedStays(log, e, k, log[a].order.arrival);
    }
  }

  /** Only the best of a side ever fills, so a new fill report respects priority. */
  lemma AdvanceRespectsPriority(st: SymbolState, side: Side, i: nat, e: Event)
    requires Lives(st) && PriorityRespected(st.log)
    requires i < |st.book.On(side)| && NextReport(st.book.On(side)[i], e)
    requires i == 0 || e.report.kind == CANCELED
    ensures PriorityRespected(Advance(st, side, i, e).log)
  {
    forall a | 0 <= a < |st.log| && Outranks(st.log[a], e)
      ensures EndedBefore(st.log, |st.log|, st.log[a].order.arrival)
    {
      assert st.log[a] in st.log;
      BestIsUnbeaten(st, side, e, st.log[a].order);
    }
    AppendRespectsPriority(st.log, e);
  }

  // ---------------------------------------------------------------- whole runs

  /** Orders are numbered in the order in which their tasks run. */
  ghost predicate NumberedInOrder(ts: seq<Task>) {
    forall i, j :: 0 <= i < j < |ts| && ts[i].NewTask? && ts[j].NewTask? ==> ts[i].order.arrival < ts[j].order.arrival
  }

  ghost predicate NumberedBelow(ts: seq<Task>, n: nat) {
    forall i :: 0 <= i < |ts| && ts[i].NewTask? ==> ts[i].order.arrival < n
  }

  ghost predicate Sound(st: SymbolState, n: nat) {
    Lives(st) && PriorityRespected(st.log) && Below(st.log, n)
  }

  lemma AdvanceKeepsSound(st: SymbolState, side: Side, i: nat, e: Event, n: nat)
    requires Sound(st, n) && i < |st.book.On(side)| && NextReport(st.book.On(side)[i], e)
    requires i == 0 || e.report.kind == CANCELED
    ensures Sound(Advance(st, side, i, e), n)
  {
    AdvanceKeepsLives(st, side, i, e);
    AdvanceRespectsPriority(st, side, i, e);
    AdvanceKeepsBelow(st, side, i, e, n);
  }

  lemma {:induction false} MatchKeepsSound(st: SymbolState, n: nat)
    requires Sound(st, n)
    ensures Sound(MatchAll(st), n)
    decreases |st.book.bids| + |st.book.asks|
  {
    if Crossed(st.book) {
      var bid, ask := Sent(FillReport(BidAfter(st.book))), Sent(FillReport(AskAfter(st.book)));
      TradeIsTwoAdvances(st);
      AdvanceKeepsSound(st, BUY, 0, bid, n);
      AdvanceKeepsSound(Advance(st, BUY, 0, bid), SELL, 0, ask, n);
      MatchKeepsSound(Trade(st), n);
    }
  }

  lemma ExecKeepsSound(st: SymbolState, t: Task, n: nat)
    requires t.NewTask? ==> Sound(st, t.order.arrival) && t.order.arrival < n
    requires t.CancelTask? ==> Sound(st, n)
    ensures Sound(Exec(st, t), n)
  {
    if t.NewTask? {
      EnterKeepsLives(st, t.order);
      AppendRespectsPriority(st.log, Entered(t.order));
      MatchKeepsSound(Enter(st, t.order), n);
    } else if CancelFinds(st.book, t) {
      var i := FindOn(st.book.On(t.side), t.owner, t.origID).value;
      CancelIsAdvance(st, t);
      AdvanceKeepsSound(st, t.side, i, Sent(CancelReport(st.book.On(t.side)[i].Cancel())), n);
    }
  }

  /** Every run of numbered tasks keeps each order's life legal, the book in step with it, and priority respected. */
  lemma {:induction false} RunIsSound(ts: seq<Task>, n: nat)
    requires NumberedInOrder(ts) && NumberedBelow(ts, n)
    ensures Sound(Run(ts), n)
  {
    if ts != [] {
      var before, t := ts[..|ts| - 1], ts[|ts| - 1];
      RunIsSound(before, if t.NewTask? then t.order.arrival else n);
      ExecKeepsSound(Run(before), t, n);
    }
  }
}
