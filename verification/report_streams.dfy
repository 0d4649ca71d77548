/** The outgoing report stream under every interleaving, symbol by symbol and order by order. */
module ReportStreams {
  import opened Filters
  import opened Orders
  import opened Books
  import opened Matching
  import opened SymbolRuns
  import opened OrderLives
  import opened Priority
  import opened TradingSystem
  import opened SystemSafety
  import opened OrderFlow

  // ---------------------------------------------------------------- histories are sound

  lemma {:induction false} FilterKeepsOrder(ts: seq<Task>, keep: Task -> bool)
    requires NumberedInOrder(ts)
    ensures NumberedInOrder(Filter(ts, keep))
  {
    if ts != [] {
      var before := ts[..|ts| - 1];
      FilterKeepsOrder(before, keep);
      FilterMembers(before, keep);
      AppendKeepsOrder(Filter(before, keep), ts[|ts| - 1]);
    }
  }

  lemma AppendKeepsOrder(ts: seq<Task>, t: Task)
    requires NumberedInOrder(ts)
    requires t.NewTask? ==> forall u :: u in ts && u.NewTask? ==> u.order.arrival < t.order.arrival
    ensures NumberedInOrder(ts + [t])
  {
  }

  /** If a symbol's new orders are in order among themselves, they are among its cancels too. */
  lemma {:induction false} CancelsDoNotMatter(ts: seq<Task>, s: string)
    requires NumberedInOrder(Filter(ts, NewFor(s)))
    ensures NumberedInOrder(TasksOf(ts, s))
  {
    if ts != [] {
      var before, t := ts[..|ts| - 1], ts[|ts| - 1];
      var news := Filter(before, NewFor(s));
      assert Filter(ts, NewFor(s))[..|news|] == news;
      CancelsDoNotMatter(before, s);
      if t.Symbol() == s {
        FilterMembers(before, For(s));
        FilterMembers(before, NewFor(s));
        if t.NewTask? {
          forall u | u in TasksOf(before, s) && u.NewTask? ensures u.order.arrival < t.order.arrival {
            assert u in news;
            LastIsGreatest(news, t, u);
          }
        }
        AppendKeepsOrder(TasksOf(before, s), t);
      }
    }
  }

  lemma LastIsGreatest(ts: seq<Task>, t: Task, u: Task)
    requires NumberedInOrder(ts + [t]) && u in ts && u.NewTask? && t.NewTask?
    ensures u.order.arrival < t.order.arrival
  {
    var i :| 0 <= i < |ts| && ts[i] == u;
    assert (ts + [t])[i] == u && (ts + [t])[|ts|] == t;
  }

  lemma HistoryIsNumbered(names: seq<string>, y: System, s: string)
    requires Numbered(y) && NewOrdersFlow(names, y)
    ensures NumberedInOrder(TasksOf(y.executed, s)) && NewBelow(TasksOf(y.executed, s), Bound(y))
  {
    var q := Home(names, s);
    assert StillFlows(names, y, q, NewFor(s));
    var done := Filter(y.executed, NewFor(s));
    FilterKeepsOrder(y.accepted, NewFor(s));
    assert Filter(y.accepted, NewFor(s))[..|done|] == done;
    CancelsDoNotMatter(y.executed, s);
    FilterMembers(y.executed, For(s));
    forall i | 0 <= i < |TasksOf(y.executed, s)| && TasksOf(y.executed, s)[i].NewTask?
      ensures TasksOf(y.executed, s)[i].order.arrival < Bound(y)
    {
      assert TasksOf(y.executed, s)[i] in y.executed;
    }
  }

  /** In every reachable state, every symbol's history has legal order lives and respects price-time priority. */
  lemma HistoryIsSound(names: seq<string>, y: System, s: string)
    requires Numbered(y) && NewOrdersFlow(names, y)
    ensures Bound(y) >= 0 && Sound(History(y, s), Bound(y))
  {
    HistoryIsNumbered(names, y, s);
    RunIsSound(TasksOf(y.executed, s), Bound(y));
  }

  // ---------------------------------------------------------------- where entered orders come from

  lemma {:induction false} MatchEntersNothing(st: SymbolState, o: Order)
    ensures Entered(o) in MatchAll(st).log <==> Entered(o) in st.log
    decreases |st.book.bids| + |st.book.asks|
  {
    if Crossed(st.book) {
      MatchEntersNothing(Trade(st), o);
    }
  }

  lemma ExecEnters(st: SymbolState, t: Task, o: Order)
    requires Entered(o) in Exec(st, t).log
    ensures Entered(o) in st.log || (t.NewTask? && t.order == o)
  {
    if t.NewTask? {
      MatchEntersNothing(Enter(st, t.order), o);
    }
  }

  lemma RunEnters(ts: seq<Task>, t: Task, o: Order)
    requires Entered(o) in Run(ts + [t]).log
    ensures Entered(o) in Run(ts).log || (t.NewTask? && t.order == o)
  {
    RunSnoc(ts, t);
    ExecEnters(Run(ts), t, o);
  }

  lemma {:induction false} EnteredByTask(ts: seq<Task>, o: Order)
    ensures Entered(o) in Run(ts).log ==> o.Fresh() && NewTask(o) in ts
  {
    if ts != [] && Entered(o) in Run(ts).log {
      var before, t := ts[..|ts| - 1], ts[|ts| - 1];
      assert ts == before + [t];
      RunEnters(before, t, o);
      EnteredByTask(before, o);
    }
  }

  lemma ExecutedWasAccepted(names: seq<string>, y: System, o: FreshOrder)
    requires Numbered(y) && NewOrdersFlow(names, y) && NewTask(o) in y.executed
    ensures NewTask(o) in y.accepted && o.arrival < Bound(y)
  {
    var keep := NewFor(o.symbol);
    FilterMembers(y.executed, keep);
    FilterMembers(y.accepted, keep);
    assert StillFlows(names, y, Home(names, o.symbol), keep);
    assert NewTask(o) in Filter(y.executed, keep) + Filter(Pipeline(y, Home(names, o.symbol)), keep);
    var i :| 0 <= i < |y.executed| && y.executed[i] == NewTask(o);
  }

  lemma ReportHasLife(log: seq<Event>, n: nat, r: Report) returns (o: Order)
    requires LifeOk(Of(log, n)) && Sent(r) in log && r.order.arrival == n
    ensures var life := Of(log, n); life != [] && life[0] == Entered(o)
    ensures Entered(o) in log && r.order.SameIdentity(o)
  {
    OfMembers(log, n);
    var life := Of(log, n);
    assert Sent(r) in life;
    LifeKeepsIdentity(life);
    assert life[0] in life;
    o := life[0].order;
  }

  /** A report in a symbol's history belongs to an order whose task was executed. */
  lemma ReportHasTask(names: seq<string>, y: System, s: string, r: Report) returns (o: FreshOrder)
    requires Numbered(y) && NewOrdersFlow(names, y) && r in SentReports(History(y, s).log)
    ensures NewTask(o) in y.executed && NewTask(o) in y.accepted && o.symbol == s
    ensures r.order.SameIdentity(o) && o.arrival < Bound(y)
    ensures var life := Of(History(y, s).log, r.order.arrival); life != [] && life[0] == Entered(o)
  {
    HistoryIsSound(names, y, s);
    SentReportsMembers(History(y, s).log);
    var entered := ReportHasLife(History(y, s).log, r.order.arrival, r);
    EnteredByTask(TasksOf(y.executed, s), entered);
    o := entered;
    FilterMembers(y.executed, For(s));
    ExecutedWasAccepted(names, y, o);
  }

  // ---------------------------------------------------------------- per symbol

  function Unsent(w: Worker): seq<Report> { if w.Reporting? then w.unsent else [] }

  ghost predicate Splits(outgoing: seq<Report>, unsent: seq<Report>, all: seq<Report>, keep: Report -> bool) {
    Filter(outgoing, keep) + Filter(unsent, keep) == all
  }

  ghost predicate KeptAs(outgoing: seq<Report>, w: Worker, executed: seq<Task>, s: string) {
    Splits(outgoing, Unsent(w), SentReports(Run(TasksOf(executed, s)).log), FromWorker(s))
  }

  /** Sent, then still to be sent: exactly the reports of the symbol's own history, in order. */
  ghost predicate ReportsKept(names: seq<string>, y: System, s: string) {
    Home(names, s) < |y.workers| && KeptAs(y.outgoing, y.workers[Home(names, s)], y.executed, s)
  }

  lemma SplitsMore(outgoing: seq<Report>, all: seq<Report>, more: seq<Report>, keep: Report -> bool)
    requires Splits(outgoing, [], all, keep) && forall r :: r in more ==> keep(r)
    ensures Splits(outgoing, more, all + more, keep)
  {
    FilterAll(more, keep);
    assert Filter(outgoing, keep) + [] == Filter(outgoing, keep);
  }

  lemma SplitsSame(outgoing: seq<Report>, all: seq<Report>, more: seq<Report>, keep: Report -> bool)
    requires Splits(outgoing, [], all, keep) && forall r :: r in more ==> !keep(r)
    ensures Splits(outgoing, more, all, keep)
  {
    FilterNone(more, keep);
  }

  lemma SplitsMoves(outgoing: seq<Report>, unsent: seq<Report>, all: seq<Report>, keep: Report -> bool)
    requires unsent != [] && Splits(outgoing, unsent, all, keep)
    ensures Splits(outgoing + [unsent[0]], unsent[1..], all, keep)
  {
    assert unsent == [unsent[0]] + unsent[1..];
    FilterAppend(outgoing, [unsent[0]], keep);
    FilterAppend([unsent[0]], unsent[1..], keep);
    ConcatAssoc(Filter(outgoing, keep), Filter([unsent[0]], keep), Filter(unsent[1..], keep));
  }

  lemma SplitsOther(outgoing: seq<Report>, r: Report, unsent: seq<Report>, all: seq<Report>, keep: Report -> bool)
    requires Splits(outgoing, unsent, all, keep) && !keep(r)
    ensures Splits(outgoing + [r], unsent, all, keep)
  {
    FilterSnoc(outgoing, r, keep);
    assert Filter(outgoing, keep) + [] == Filter(outgoing, keep);
  }

  lemma SentReportsAppend(a: seq<Event>, b: seq<Event>)
    ensures SentReports(a + b) == SentReports(a) + SentReports(b)
  {
    if b == [] {
      assert a + b == a;
    } else {
      assert (a + b)[..|a + b| - 1] == a + b[..|b| - 1];
      SentReportsAppend(a, b[..|b| - 1]);
    }
  }

  lemma HistoryReports(books: map<string, Book>, ts: seq<Task>, t: Task, s: string)
    requires BookIs(books, ts, s)
    ensures var before := SentReports(Run(TasksOf(ts, s)).log);
            SentReports(Run(TasksOf(ts + [t], s)).log)
              == if t.Symbol() == s then before + SentReports(Executed(books, t).log) else before
  {
    var h := Run(TasksOf(ts, s));
    RunOfSnoc(ts, t, s);
    if t.Symbol() == s {
      ExecAppends(h.book, h.log, t);
      assert SymbolState(h.book, h.log) == h;
      SentReportsAppend(h.log, Executed(books, t).log);
    }
  }

  lemma OwnTaskKept(books: map<string, Book>, ts: seq<Task>, outgoing: seq<Report>, w: Worker, t: Task)
    requires BookIs(books, ts, t.Symbol()) && w.Running? && KeptAs(outgoing, w, ts, t.Symbol())
    ensures KeptAs(outgoing, WorkerAfter(books, t), ts + [t], t.Symbol())
  {
    HistoryReports(books, ts, t, t.Symbol());
    NewReports(books, ts, t);
    SplitsMore(outgoing, SentReports(Run(TasksOf(ts, t.Symbol())).log), SentReports(Executed(books, t).log),
               FromWorker(t.Symbol()));
  }

  lemma OtherTaskKept(books: map<string, Book>, ts: seq<Task>, outgoing: seq<Report>, w: Worker, t: Task, s: string)
    requires BookIs(books, ts, s) && BookIs(books, ts, t.Symbol()) && t.Symbol() != s && KeptAs(outgoing, w, ts, s)
    ensures KeptAs(outgoing, w, ts + [t], s)
    ensures w.Running? ==> KeptAs(outgoing, WorkerAfter(books, t), ts + [t], s)
  {
    HistoryReports(books, ts, t, s);
    if w.Running? {
      NewReports(books, ts, t);
      SplitsSame(outgoing, SentReports(Run(TasksOf(ts, s)).log), SentReports(Executed(books, t).log), FromWorker(s));
    }
  }

  lemma ExecuteKeepsReports(names: seq<string>, y: System, w: nat, s: string)
    requires w < |y.workers| && y.workers[w].Running? && AtHome(names, y.workers[w], w)
    requires BookIs(y.books, y.executed, s) && BookIs(y.books, y.executed, y.workers[w].task.Symbol())
    requires ReportsKept(names, y, s)
    ensures ReportsKept(names, ExecuteOn(y, w), s)
  {
    var t, q := y.workers[w].task, Home(names, s);
    assert ExecuteOn(y, w).workers[q] == if q == w then WorkerAfter(y.books, t) else y.workers[q];
    assert t.Symbol() == s ==> q == w;
    if t.Symbol() == s {
      OwnTaskKept(y.books, y.executed, y.outgoing, y.workers[w], t);
    } else {
      OtherTaskKept(y.books, y.executed, y.outgoing, y.workers[q], t, s);
    }
  }

  lemma NewReports(books: map<string, Book>, ts: seq<Task>, t: Task)
    requires BookIs(books, ts, t.Symbol())
    ensures var reports := SentReports(Executed(books, t).log);
            && Unsent(WorkerAfter(books, t)) == reports
            && (forall r :: r in reports ==> FromWorker(t.Symbol())(r))
            && (forall s :: s != t.Symbol() ==> forall r :: r in reports ==> !FromWorker(s)(r))
  {
    ReportsAreTheSymbols(books, ts, t);
  }

  lemma SentKept(outgoing: seq<Report>, unsent: seq<Report>, executed: seq<Task>, s: string)
    requires unsent != [] && KeptAs(outgoing, Reporting(unsent), executed, s)
    ensures KeptAs(outgoing + [unsent[0]], Reporting(unsent[1..]), executed, s)
  {
    SplitsMoves(outgoing, unsent, SentReports(Run(TasksOf(executed, s)).log), FromWorker(s));
  }

  lemma OtherSentKept(outgoing: seq<Report>, r: Report, w: Worker, executed: seq<Task>, s: string)
    requires KeptAs(outgoing, w, executed, s) && !FromWorker(s)(r)
    ensures KeptAs(outgoing + [r], w, executed, s)
  {
    SplitsOther(outgoing, r, Unsent(w), SentReports(Run(TasksOf(executed, s)).log), FromWorker(s));
  }

  lemma SendKeepsReports(names: seq<string>, y: System, w: nat, s: string)
    requires w < |y.workers| && y.workers[w].Reporting? && AtHome(names, y.workers[w], w) && ReportsKept(names, y, s)
    ensures ReportsKept(names, SendOn(y, w), s)
  {
    var unsent := y.workers[w].unsent;
    if unsent != [] {
      if Home(names, s) == w {
        SentKept(y.outgoing, unsent, y.executed, s);
      } else {
        assert !FromWorker(s)(unsent[0]);
        OtherSentKept(y.outgoing, unsent[0], y.workers[Home(names, s)], y.executed, s);
      }
    }
  }

  lemma AnnounceKeepsReports(names: seq<string>, y: System, s: string)
    requires Numbered(y) && y.dispatcher.Announcing? && ReportsKept(names, y, s)
    ensures ReportsKept(names, AnnounceOne(y), s)
  {
    OtherSentKept(y.outgoing, y.dispatcher.report, y.workers[Home(names, s)], y.executed, s);
  }

  lemma QuietKeepsReports(names: seq<string>, y: System, step: Step, s: string)
    requires Routed(names, y) && Enabled(y, step) && ReportsKept(names, y, s)
    requires step.Push? || step.Flush? || step.Dispatch? || step.Submit? || step.Pop? || step.Resubmit?
    ensures ReportsKept(names, Perform(y, step), s)
  {
    QuietEffect(y, step, Home(names, s));
  }

  lemma QuietEffect(y: System, step: Step, q: nat)
    requires Enabled(y, step) && q < |y.workers|
    requires step.Push? || step.Flush? || step.Dispatch? || step.Submit? || step.Pop? || step.Resubmit?
    ensures var y' := Perform(y, step);
            && y'.outgoing == y.outgoing && y'.executed == y.executed
            && |y'.workers| == |y.workers| && Unsent(y'.workers[q]) == Unsent(y.workers[q])
  {
    match step
    case Submit => SubmitEffect(y.(dispatcher := Ready), y.dispatcher.task);
    case Resubmit(w) => SubmitEffect(y.(workers := y.workers[w := Waiting]), y.workers[w].task);
    case _ =>
  }

  lemma StepKeepsReports(names: seq<string>, y: System, step: Step, s: string)
    requires Routed(names, y) && BooksMatch(names, y) && Numbered(y) && Enabled(y, step) && ReportsKept(names, y, s)
    ensures ReportsKept(names, Perform(y, step), s)
  {
    if step.ExecuteTask? {
      assert AtHome(names, y.workers[step.q], step.q);
      assert BookIs(y.books, y.executed, s) && BookIs(y.books, y.executed, y.workers[step.q].task.Symbol());
      ExecuteKeepsReports(names, y, step.q, s);
    } else if step.SendReport? {
      assert AtHome(names, y.workers[step.q], step.q);
      SendKeepsReports(names, y, step.q, s);
    } else if step.Announce? {
      AnnounceKeepsReports(names, y, s);
    } else {
      QuietKeepsReports(names, y, step, s);
    }
  }
}
