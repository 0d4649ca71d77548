/** What holds of every symbol in every reachable state of the engine, and which symbols it accepts orders for. */
module SymbolSafety {
  import opened Filters
  import opened Matching
  import opened SymbolRuns
  import opened OrderLives
  import opened Priority
  import opened Ledger
  import opened TradingSystem
  import opened SystemSafety
  import opened OrderFlow
  import opened ReportStreams
  import opened ClientStreams

  /** Under every interleaving, each live book is what the symbol's own history makes of it and is uncrossed; in that
      history every order's life is legal, price-time priority is respected and both sides balance; and the reports
      sent so far are an initial part of the history's. */
  lemma EverySymbolIsSafe(names: seq<string>, steps: seq<Step>, s: string)
    requires names != []
    ensures var y := After(names, steps); var h := History(y, s);
            && BookOf(y.books, s) == h.book && !Crossed(h.book)
            && Lives(h) && PriorityRespected(h.log) && Balanced(h)
            && Filter(y.outgoing, FromWorker(s)) <= SentReports(h.log)
  {
    EveryRunIsSafe(names, steps);
    var y := After(names, steps);
    assert BookIs(y.books, y.executed, s) && ReportsKept(names, y, s);
    HistoryIsSound(names, y, s);
    RunBalances(TasksOf(y.executed, s));
  }

  /** Every task of a symbol is queued at, taken by and run by the one worker whose queue the symbol has, no submission
      ever fails, and the symbol's new orders run in the order in which they were accepted, none lost or repeated. */
  lemma OneWorkerPerSymbol(names: seq<string>, steps: seq<Step>, s: string)
    requires names != []
    ensures var y := After(names, steps); var home := Home(names, s);
            && !y.submitFailed && home < |names| == |y.queues| == |y.workers|
            && (forall q, i :: 0 <= q < |names| && 0 <= i < |y.queues[q]| && y.queues[q][i].Symbol() == s ==> q == home)
            && (forall q :: 0 <= q < |names| && y.workers[q].Running? && y.workers[q].task.Symbol() == s ==> q == home)
            && Filter(y.executed, NewFor(s)) + Filter(Pipeline(y, home), NewFor(s)) == Filter(y.accepted, NewFor(s))
  {
    EveryRunIsSafe(names, steps);
    var y := After(names, steps);
    HomeIsFirstMention(names, s);
    assert StillFlows(names, y, Home(names, s), NewFor(s));
    forall q | 0 <= q < |names| ensures AtHome(names, y.workers[q], q) && QueueAtHome(names, y.queues[q], q) {
    }
  }

  // ---------------------------------------------------------------- known symbols

  ghost predicate Touched(executed: seq<Task>, s: string) {
    exists i :: 0 <= i < |executed| && executed[i].Symbol() == s
  }

  lemma TouchedSnoc(executed: seq<Task>, t: Task, s: string)
    ensures Touched(executed + [t], s) <==> Touched(executed, s) || t.Symbol() == s
  {
    if Touched(executed, s) {
      var i :| 0 <= i < |executed| && executed[i].Symbol() == s;
      assert (executed + [t])[i].Symbol() == s;
    }
    if t.Symbol() == s {
      assert (executed + [t])[|executed|].Symbol() == s;
    }
  }

  lemma StepKeepsKnown(names: seq<string>, y: System, step: Step, s: string)
    requires s in y.books <==> s in names || Touched(y.executed, s)
    ensures s in Apply(y, step).books <==> s in names || Touched(Apply(y, step).executed, s)
  {
    if Enabled(y, step) {
      if step.ExecuteTask? {
        TouchedSnoc(y.executed, y.workers[step.q].task, s);
      } else {
        OnlyExecutionTouchesBooks(y, step);
      }
    }
  }

  /** A symbol has a book exactly when it was configured or some task has been executed on it. */
  lemma {:induction false} KnownExactly(names: seq<string>, steps: seq<Step>, s: string)
    ensures var y := After(names, steps); s in y.books <==> s in names || Touched(y.executed, s)
  {
    if steps != [] {
      KnownExactly(names, steps[..|steps| - 1], s);
      StepKeepsKnown(names, After(names, steps[..|steps| - 1]), steps[|steps| - 1], s);
    }
  }

  /** "Symbol not supported" is answered exactly to a symbol that is not configured and that no cancel has named in a
      task executed by then: an executed cancel creates the book it looks into. */
  lemma RejectedExactly(names: seq<string>, steps: seq<Step>)
    requires var y := After(names, steps); Enabled(y, Dispatch) && y.batch[0].NewMessage?
    ensures var y := After(names, steps);
            var o := Stamp(y.batch[0].order, y.dispatched);
            var d := Apply(y, Dispatch).dispatcher;
            && d.Announcing?
            && (d.report == Rejected(o) <==> o.symbol !in names && !Touched(y.executed, o.symbol))
            && (d.report == Accepted(o) <==> o.symbol in names || Touched(y.executed, o.symbol))
  {
    KnownExactly(names, steps, After(names, steps).batch[0].order.symbol);
  }
}
