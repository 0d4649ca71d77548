/** What every interleaving of the actors keeps: routing, each book in step with its symbol's own history, and
    new orders flowing through the work queues in dispatch order. */
module SystemSafety {
  import opened Filters
  import opened Orders
  import opened Books
  import opened Matching
  import opened SymbolRuns
  import opened OrderLives
  import opened TradingSystem

  // ---------------------------------------------------------------- routing

  lemma {:induction false} InitialQueuesInRange(names: seq<string>, s: string)
    ensures s in InitialQueues(names) <==> s in names
    ensures s in names ==> InitialQueues(names)[s] < |names| && names[InitialQueues(names)[s]] == s
    ensures s in names ==> forall q :: 0 <= q < InitialQueues(names)[s] ==> names[q] != s
  {
    if names != [] {
      InitialQueuesInRange(names[..|names| - 1], s);
      assert names == names[..|names| - 1] + [names[|names| - 1]];
    }
  }

  /** A symbol's queue is the position of its first mention among the thread names, or queue 0 if it has none. */
  lemma HomeIsFirstMention(names: seq<string>, s: string)
    requires names != []
    ensures Home(names, s) < |names|
    ensures s in names ==> names[Home(names, s)] == s && forall q :: 0 <= q < Home(names, s) ==> names[q] != s
    ensures s !in names ==> Home(names, s) == 0
  {
    InitialQueuesInRange(names, s);
  }

  predicate AtHome(names: seq<string>, w: Worker, q: nat) {
    match w
    case Waiting => true
    case Running(t) => Home(names, t.Symbol()) == q
    case Reporting(unsent) => forall i :: 0 <= i < |unsent| ==> Home(names, unsent[i].order.symbol) == q
    case Resubmitting(t) => Home(names, t.Symbol()) == q && t.CancelTask?
  }

  predicate QueueAtHome(names: seq<string>, queue: seq<Task>, q: nat) {
    forall i :: 0 <= i < |queue| ==> Home(names, queue[i].Symbol()) == q
  }

  ghost predicate Shaped(names: seq<string>, y: System) {
    && names != [] && |y.queues| == |y.workers| == |y.popped| == |names|
    && !y.submitFailed
    && (forall s :: Route(y.queueOf, s) == Home(names, s))
  }

  /** Every task is queued, executed and reported by its symbol's home worker, and no submission ever fails. */
  ghost predicate Routed(names: seq<string>, y: System) {
    && Shaped(names, y)
    && (forall q :: 0 <= q < |names| ==> AtHome(names, y.workers[q], q) && QueueAtHome(names, y.queues[q], q))
  }

  lemma StartIsRouted(names: seq<string>)
    requires names != []
    ensures Routed(names, Start(names))
  {
  }

  lemma SubmitLandsAtHome(names: seq<string>, y: System, t: Task)
    requires Shaped(names, y)
    ensures Shaped(names, SubmitTo(y, t)) && Home(names, t.Symbol()) < |names|
    ensures var q := Home(names, t.Symbol());
            SubmitTo(y, t) == y.(queueOf := LookedUp(y.queueOf, t.Symbol()), queues := y.queues[q := y.queues[q] + [t]])
  {
    HomeIsFirstMention(names, t.Symbol());
  }

  lemma SubmitStaysHome(names: seq<string>, y: System, t: Task)
    requires Routed(names, y)
    ensures Routed(names, SubmitTo(y, t))
  {
    SubmitLandsAtHome(names, y, t);
  }

  /** What executing one task can report: its own symbol's orders only, and only fills or cancels. */
  ghost predicate OnlySymbol(st: SymbolState, s: string) {
    && (forall side, o :: o in st.book.On(side) ==> o.symbol == s)
    && (forall e :: e in st.log ==> OrderOf(e).symbol == s && (e.Sent? ==> FromWorker(s)(e.report)))
  }

  function FromWorker(s: string): Report -> bool {
    (r: Report) => r.kind in {PARTIALLY_FILLED, FILLED, CANCELED} && r.order.symbol == s
  }

  lemma AdvanceKeepsSymbol(st: SymbolState, side: Side, i: nat, e: Event, s: string)
    requires OnlySymbol(st, s) && i < |st.book.On(side)| && NextReport(st.book.On(side)[i], e)
    ensures OnlySymbol(Advance(st, side, i, e), s)
  {
    var r := Advance(st, side, i, e);
    assert st.book.On(side)[i] in st.book.On(side);
    forall other, o | o in r.book.On(other) ensures o.symbol == s {
      assert o in st.book.On(other) || o == e.report.order;
    }
  }

  lemma {:induction false} MatchKeepsSymbol(st: SymbolState, s: string)
    requires OnlySymbol(st, s)
    ensures OnlySymbol(MatchAll(st), s)
    decreases |st.book.bids| + |st.book.asks|
  {
    if Crossed(st.book) {
      var bid, ask := Sent(FillReport(BidAfter(st.book))), Sent(FillReport(AskAfter(st.book)));
      TradeIsTwoAdvances(st);
      AdvanceKeepsSymbol(st, BUY, 0, bid, s);
      AdvanceKeepsSymbol(Advance(st, BUY, 0, bid), SELL, 0, ask, s);
      MatchKeepsSymbol(Trade(st), s);
    }
  }

  lemma ExecKeepsSymbol(st: SymbolState, t: Task)
    requires OnlySymbol(st, t.Symbol())
    ensures OnlySymbol(Exec(st, t), t.Symbol())
  {
    if t.NewTask? {
      var r := Enter(st, t.order);
      forall side, o | o in r.book.On(side) ensures o.symbol == t.Symbol() {
        InsertOnMembers(st.book.On(t.order.side), t.order, o);
      }
      MatchKeepsSymbol(r, t.Symbol());
    } else if CancelFinds(st.book, t) {
      var i := FindOn(st.book.On(t.side), t.owner, t.origID).value;
      CancelIsAdvance(st, t);
      AdvanceKeepsSymbol(st, t.side, i, Sent(CancelReport(st.book.On(t.side)[i].Cancel())), t.Symbol());
    }
  }

  // ---------------------------------------------------------------- histories

  function For(s: string): Task -> bool { (t: Task) => t.Symbol() == s }

  function NewFor(s: string): Task -> bool { (t: Task) => t.NewTask? && t.Symbol() == s }

  function TasksOf(ts: seq<Task>, s: string): seq<Task> { Filter(ts, For(s)) }

  /** One symbol's own history: its executed tasks, run with nothing else around. */
  function History(y: System, s: string): SymbolState { Run(TasksOf(y.executed, s)) }

  lemma {:induction false} HistoryKeepsSymbol(ts: seq<Task>, s: string)
    ensures OnlySymbol(Run(TasksOf(ts, s)), s)
  {
    if ts == [] {
      assert Run(TasksOf(ts, s)) == START;
    } else {
      var before, t := ts[..|ts| - 1], ts[|ts| - 1];
      assert ts == before + [t];
      HistoryKeepsSymbol(before, s);
      RunOfSnoc(before, t, s);
      if t.Symbol() == s {
        ExecKeepsSymbol(Run(TasksOf(before, s)), t);
      }
    }
  }

  lemma RunOfSnoc(ts: seq<Task>, t: Task, s: string)
    ensures Run(TasksOf(ts + [t], s)) == if t.Symbol() == s then Exec(Run(TasksOf(ts, s)), t) else Run(TasksOf(ts, s))
  {
    FilterSnoc(ts, t, For(s));
    if t.Symbol() == s {
      RunSnoc(TasksOf(ts, s), t);
    } else {
      assert TasksOf(ts, s) + [] == TasksOf(ts, s);
    }
  }

  /** Executing on a live book and on a symbol's history do the same thing. */
  lemma ExecAppends(b: Book, log: seq<Event>, t: Task)
    ensures var r := Exec(SymbolState(b, []), t);
            Exec(SymbolState(b, log), t) == SymbolState(r.book, log + r.log)
  {
    if t.NewTask? {
      var b' := Insert(b, t.order);
      assert [] + [Entered(t.order)] == [Entered(t.order)];
      MatchAppends(b', log + [Entered(t.order)]);
      MatchAppends(b', [Entered(t.order)]);
      var r := MatchAll(SymbolState(b', []));
      assert (log + [Entered(t.order)]) + r.log == log + ([Entered(t.order)] + r.log);
    } else {
      assert log + [] == log;
      if CancelFinds(b, t) {
        var e := Exec(SymbolState(b, []), t).log;
        assert |e| == 1 && log + e == log + [e[0]];
      }
    }
  }

  /** Every live book is exactly what its symbol's own history makes of it. */
  ghost predicate BookIs(books: map<string, Book>, ts: seq<Task>, s: string) {
    BookOf(books, s) == Run(TasksOf(ts, s)).book
  }

  ghost predicate BooksMatch(names: seq<string>, y: System) {
    && (forall s :: BookIs(y.books, y.executed, s))
    && (forall s :: s in names ==> s in y.books)
  }

  lemma SubmitEffect(y: System, t: Task)
    ensures var y' := SubmitTo(y, t);
            && y'.outgoing == y.outgoing && y'.executed == y.executed && y'.workers == y.workers && y'.books == y.books
  {
  }

  lemma OnlyExecutionTouchesBooks(y: System, step: Step)
    requires Enabled(y, step) && !step.ExecuteTask?
    ensures Perform(y, step).books == y.books && Perform(y, step).executed == y.executed
  {
    match step
    case Submit => SubmitEffect(y.(dispatcher := Ready), y.dispatcher.task);
    case Resubmit(w) => SubmitEffect(y.(workers := y.workers[w := Waiting]), y.workers[w].task);
    case _ =>
  }

  lemma ExecuteKeepsBook(books: map<string, Book>, ts: seq<Task>, t: Task, s: string)
    requires BookIs(books, ts, s)
    ensures BookIs(BooksAfter(books, t), ts + [t], s)
  {
    var h := Run(TasksOf(ts, s));
    RunOfSnoc(ts, t, s);
    if t.Symbol() == s {
      ExecAppends(h.book, h.log, t);
      assert SymbolState(h.book, h.log) == h;
    }
  }

  lemma StepKeepsBooks(names: seq<string>, y: System, step: Step)
    requires BooksMatch(names, y)
    ensures BooksMatch(names, Apply(y, step))
  {
    if Enabled(y, step) && step.ExecuteTask? {
      var t := y.workers[step.q].task;
      forall s ensures BookIs(BooksAfter(y.books, t), y.executed + [t], s) {
        assert BookIs(y.books, y.executed, s);
        ExecuteKeepsBook(y.books, y.executed, t, s);
      }
    } else if Enabled(y, step) {
      OnlyExecutionTouchesBooks(y, step);
    }
  }

  lemma PopStaysHome(names: seq<string>, y: System, q: nat)
    requires Routed(names, y) && CanPop(y, q)
    ensures Routed(names, PopOn(y, q))
  {
    assert QueueAtHome(names, y.queues[q], q);
  }

  lemma SendStaysHome(names: seq<string>, y: System, q: nat)
    requires Routed(names, y) && q < |names| && y.workers[q].Reporting?
    ensures Routed(names, SendOn(y, q))
  {
    assert AtHome(names, y.workers[q], q);
  }

  lemma ExecuteStaysHome(names: seq<string>, y: System, q: nat)
    requires Routed(names, y) && BooksMatch(names, y) && q < |names| && y.workers[q].Running?
    ensures Routed(names, ExecuteOn(y, q))
  {
    var t := y.workers[q].task;
    assert AtHome(names, y.workers[q], q);
    assert BookIs(y.books, y.executed, t.Symbol());
    ReportsAtHome(names, y.books, y.executed, t, q);
  }

  lemma StepKeepsRouted(names: seq<string>, y: System, step: Step)
    requires Routed(names, y) && BooksMatch(names, y)
    ensures Routed(names, Apply(y, step))
  {
    if Enabled(y, step) {
      match step
      case Submit => SubmitStaysHome(names, y.(dispatcher := Ready), y.dispatcher.task);
      case Pop(q) => PopStaysHome(names, y, q);
      case ExecuteTask(q) => ExecuteStaysHome(names, y, q);
      case SendReport(q) => SendStaysHome(names, y, q);
      case Resubmit(q) => SubmitStaysHome(names, y.(workers := y.workers[q := Waiting]), y.workers[q].task);
      case _ =>
    }
  }

  lemma ReportsAreTheSymbols(books: map<string, Book>, ts: seq<Task>, t: Task)
    requires BookIs(books, ts, t.Symbol())
    ensures forall r :: r in SentReports(Executed(books, t).log) ==> FromWorker(t.Symbol())(r)
  {
    HistoryKeepsSymbol(ts, t.Symbol());
    assert OnlySymbol(SymbolState(BookOf(books, t.Symbol()), []), t.Symbol());
    ExecKeepsSymbol(SymbolState(BookOf(books, t.Symbol()), []), t);
    SentReportsMembers(Executed(books, t).log);
  }

  lemma {:induction false} SentReportsMembers(log: seq<Event>)
    ensures forall r :: r in SentReports(log) ==> Sent(r) in log
    ensures forall r :: Sent(r) in log ==> r in SentReports(log)
  {
    if log != [] {
      SentReportsMembers(log[..|log| - 1]);
      assert log == log[..|log| - 1] + [log[|log| - 1]];
    }
  }

  lemma ReportsAtHome(names: seq<string>, books: map<string, Book>, ts: seq<Task>, t: Task, q: nat)
    requires BookIs(books, ts, t.Symbol()) && Home(names, t.Symbol()) == q
    ensures AtHome(names, WorkerAfter(books, t), q)
  {
    ReportsAreTheSymbols(books, ts, t);
    ReportingAtHome(names, SentReports(Executed(books, t).log), t.Symbol());
  }

  lemma ReportingAtHome(names: seq<string>, reports: seq<Report>, s: string)
    requires forall r :: r in reports ==> FromWorker(s)(r)
    ensures AtHome(names, Reporting(reports), Home(names, s))
  {
    AllOfSymbol(reports, s);
  }

  lemma AllOfSymbol(reports: seq<Report>, s: string)
    requires forall r :: r in reports ==> FromWorker(s)(r)
    ensures forall i :: 0 <= i < |reports| ==> reports[i].order.symbol == s
  {
    forall i | 0 <= i < |reports| ensures reports[i].order.symbol == s {
      assert FromWorker(s)(reports[i]);
    }
  }

  /** A book only ever changes when its home worker executes a task of its symbol. */
  lemma BookChangesOnlyAtHome(names: seq<string>, y: System, step: Step, s: string)
    requires Routed(names, y)
    ensures BookOf(Apply(y, step).books, s) != BookOf(y.books, s) ==>
              step == ExecuteTask(Home(names, s)) && y.workers[Home(names, s)].Running?
              && y.workers[Home(names, s)].task.Symbol() == s
  {
    if Enabled(y, step) {
      if step.ExecuteTask? {
        assert AtHome(names, y.workers[step.q], step.q);
      } else {
        OnlyExecutionTouchesBooks(y, step);
      }
    }
  }
}
