/** The multithreaded engine and the single-threaded mode agree. */
module Equivalence {
  import opened Filters
  import opened Books
  import opened Matching
  import opened SymbolRuns
  import opened TradingSystem
  import opened SystemSafety
  import opened OrderFlow
  import opened ReportStreams
  import opened ClientStreams
  import opened SingleThreaded

  function Pending(d: Dispatcher): seq<Report> { if d.Announcing? then [d.report] else [] }

  /** The dispatcher has decided the same tasks and announcements. */
  ghost predicate Decided(names: seq<string>, y: System) {
    && y.dispatched <= |y.pushed|
    && y.accepted == TasksFrom(names, TakenUp(y))
    && Filter(y.outgoing, FromDispatcher()) + Pending(y.dispatcher) == Announcements(names, TakenUp(y))
  }

  /** Every symbol's tasks flow in order, cancels included. */
  ghost predicate AllTasksFlow(names: seq<string>, y: System) {
    forall s :: StillFlows(names, y, Home(names, s), For(s))
  }

  /** No book appeared for an unknown symbol, and no cancel was put back. */
  predicate NothingUnfound(names: seq<string>, y: System) {
    && (forall s :: s in y.books.Keys ==> s in names) && (forall s :: s in names ==> s in y.books.Keys)
    && (forall q :: 0 <= q < |y.workers| ==> !y.workers[q].Resubmitting?)
  }

  /** In step with the single-threaded mode. */
  ghost predicate InStep(names: seq<string>, y: System) {
    Decided(names, y) && AllTasksFlow(names, y) && NothingUnfound(names, y)
  }

  // ---------------------------------------------------------------- cancels find their orders here too

  lemma CancelCameFrom(names: seq<string>, m: Message, n: nat, t: Task)
    requires TaskFrom(names, m, n) == [t] && t.CancelTask?
    ensures m.CancelMessage? && CancelOf(m) == t
  {
    assert TaskFrom(names, m, n)[0] == t;
  }

  /** The running task is the symbol's next one in the single-threaded run, so its cancel finds the same order. */
  lemma RunningCancelFinds(names: seq<string>, y: System, q: nat)
    requires CancelsFind(names, y.pushed) && Decided(names, y) && AllTasksFlow(names, y)
    requires q < |y.workers| && y.workers[q].Running? && AtHome(names, y.workers[q], q)
    requires BookIs(y.books, y.executed, y.workers[q].task.Symbol())
    ensures !Unfound(y.books, y.workers[q].task)
  {
    var t := y.workers[q].task;
    var s := t.Symbol();
    if t.CancelTask? {
      RunningIsNext(names, y, q);
      NextCancelFinds(names, y, t, TasksOf(y.queues[q] + DispatcherTask(y.dispatcher), s));
    }
  }

  lemma NextCancelFinds(names: seq<string>, y: System, t: Task, after: seq<Task>)
    requires y.dispatched <= |y.pushed| && CancelsFind(names, y.pushed) && t.CancelTask?
    requires BookIs(y.books, y.executed, t.Symbol())
    requires TasksOf(TasksFrom(names, TakenUp(y)), t.Symbol()) == TasksOf(y.executed, t.Symbol()) + [t] + after
    ensures !Unfound(y.books, t)
  {
    var k := NextTaskCameFrom(names, TakenUp(y), t.Symbol(), TasksOf(y.executed, t.Symbol()), t, after);
    CancelCameFrom(names, TakenUp(y)[k], k, t);
    assert TakenUp(y)[k] == y.pushed[k];
    SameBookThere(names, y, k, t.Symbol());
  }

  lemma RunningIsNext(names: seq<string>, y: System, q: nat)
    requires Decided(names, y) && AllTasksFlow(names, y)
    requires q < |y.workers| && y.workers[q].Running? && AtHome(names, y.workers[q], q)
    ensures q < |y.queues|
    ensures var t := y.workers[q].task; var s := t.Symbol();
            TasksOf(TasksFrom(names, TakenUp(y)), s)
              == TasksOf(y.executed, s) + [t] + TasksOf(y.queues[q] + DispatcherTask(y.dispatcher), s)
  {
    var t := y.workers[q].task;
    var s := t.Symbol();
    assert StillFlows(names, y, Home(names, s), For(s));
    var rest := y.queues[q] + DispatcherTask(y.dispatcher);
    assert Pipeline(y, q) == [t] + rest;
    FilterAppend([t], rest, For(s));
    FilterOne(t, For(s));
    ConcatAssoc(TasksOf(y.executed, s), [t], TasksOf(rest, s));
  }

  /** When message `k` cancels in the single-threaded run, the book it searches is the live one. */
  lemma SameBookThere(names: seq<string>, y: System, k: nat, s: string)
    requires BookIs(y.books, y.executed, s) && CancelsFind(names, y.pushed) && y.dispatched <= |y.pushed|
    requires k < y.dispatched && y.pushed[k].CancelMessage? && CancelOf(y.pushed[k]).Symbol() == s
    requires TasksOf(TasksFrom(names, TakenUp(y)[..k]), s) == TasksOf(y.executed, s)
    ensures !Unfound(y.books, CancelOf(y.pushed[k]))
  {
    assert TakenUp(y)[..k] == y.pushed[..k];
    CancelFoundAt(names, y.pushed, k);
    SingleBookIs(names, y.pushed[..k], s);
    SameBookSameAnswer(y.books, SingleRun(names, y.pushed[..k]).books, CancelOf(y.pushed[k]));
  }

  lemma SameBookSameAnswer(a: map<string, Book>, b: map<string, Book>, t: Task)
    requires BookOf(a, t.Symbol()) == BookOf(b, t.Symbol())
    ensures Unfound(a, t) == Unfound(b, t)
  {
  }

  lemma CancelFoundAt(names: seq<string>, ms: seq<Message>, k: nat)
    requires CancelsFind(names, ms) && k < |ms| && ms[k].CancelMessage?
    ensures CancelsFind(names, ms[..k]) && !Unfound(SingleRun(names, ms[..k]).books, CancelOf(ms[k]))
  {
    CancelsFindPrefix(names, ms, k + 1);
    assert ms[..k + 1][..k] == ms[..k];
  }

  lemma SingleBookIs(names: seq<string>, ms: seq<Message>, s: string)
    requires CancelsFind(names, ms)
    ensures BookIs(SingleRun(names, ms).books, TasksFrom(names, ms), s)
    ensures Filter(SingleRun(names, ms).outgoing, FromWorker(s))
        == SentReports(Run(TasksOf(TasksFrom(names, ms), s)).log)
  {
    SingleIsMadeOfHistories(names, ms);
  }

  // ---------------------------------------------------------------- every step stays in step

  lemma StepKeepsAllTasksFlow(names: seq<string>, y: System, step: Step)
    requires Routed(names, y) && Enabled(y, step) && AllTasksFlow(names, y) && !step.Resubmit?
    ensures AllTasksFlow(names, Perform(y, step))
  {
    var y' := Perform(y, step);
    forall s ensures StillFlows(names, y', Home(names, s), For(s)) {
      assert StillFlows(names, y, Home(names, s), For(s));
      StepFlows(names, y, step, Home(names, s), For(s));
    }
  }

  lemma DispatchDecides(names: seq<string>, y: System)
    requires Enabled(y, Dispatch) && NothingUnfound(names, y)
    ensures var y' := DispatchOne(y); var m := y.batch[0];
            && y'.accepted == y.accepted + TaskFrom(names, m, y.dispatched)
            && Pending(y'.dispatcher) == AnnouncementOf(names, m, y.dispatched)
  {
    assert y.accepted + [] == y.accepted;
  }

  lemma DecidesNext(names: seq<string>, y: System, y': System, m: Message)
    requires Decided(names, y) && y.dispatched < |y.pushed| && y.pushed[y.dispatched] == m
        && Pending(y.dispatcher) == []
    requires y'.pushed == y.pushed && y'.dispatched == y.dispatched + 1 && y'.outgoing == y.outgoing
    requires y'.accepted == y.accepted + TaskFrom(names, m, y.dispatched)
    requires Pending(y'.dispatcher) == AnnouncementOf(names, m, y.dispatched)
    ensures Decided(names, y')
  {
    assert TakenUp(y') == TakenUp(y) + [m];
    TasksFromSnoc(names, TakenUp(y), m);
    assert Filter(y.outgoing, FromDispatcher()) + [] == Filter(y.outgoing, FromDispatcher());
  }

  lemma DispatchKeepsDecided(names: seq<string>, y: System)
    requires MessagesKept(y) && Decided(names, y) && NothingUnfound(names, y) && Enabled(y, Dispatch)
    ensures Decided(names, DispatchOne(y))
  {
    assert y.pushed[y.dispatched..][0] == y.batch[0];
    DispatchDecides(names, y);
    DecidesNext(names, y, DispatchOne(y), y.batch[0]);
  }

  lemma AnnounceKeepsDecided(names: seq<string>, y: System)
    requires Numbered(y) && Decided(names, y) && y.dispatcher.Announcing?
    ensures Decided(names, AnnounceOne(y))
  {
    var announced := Filter(y.outgoing, FromDispatcher());
    FilterSnoc(y.outgoing, y.dispatcher.report, FromDispatcher());
    assert (announced + [y.dispatcher.report]) + [] == announced + [y.dispatcher.report];
  }

  lemma SendKeepsDecided(names: seq<string>, y: System, q: nat)
    requires WorkersReport(y) && Decided(names, y) && q < |y.workers| && y.workers[q].Reporting?
    ensures Decided(names, SendOn(y, q))
  {
    if y.workers[q].unsent != [] {
      var r := y.workers[q].unsent[0];
      assert FromWorker(r.order.symbol)(r);
      FilterSnoc(y.outgoing, r, FromDispatcher());
    }
  }

  lemma PushKeepsDecided(names: seq<string>, y: System, m: Message)
    requires Decided(names, y)
    ensures Decided(names, Perform(y, Push(m)))
  {
    assert TakenUp(Perform(y, Push(m))) == TakenUp(y);
  }

  lemma OthersKeepDecided(names: seq<string>, y: System, step: Step)
    requires Decided(names, y) && Enabled(y, step)
    requires step.Flush? || step.Submit? || step.Pop? || step.ExecuteTask? || step.Resubmit?
    ensures Decided(names, Perform(y, step))
  {
    match step {
      case Submit => SubmitUndecided(y.(dispatcher := Ready), y.dispatcher.task);
      case Resubmit(w) => SubmitUndecided(y.(workers := y.workers[w := Waiting]), y.workers[w].task);
      case _ =>
    }
    SameDecisions(names, y, Perform(y, step));
  }

  lemma SubmitUndecided(y: System, t: Task)
    ensures var y' := SubmitTo(y, t);
            && y'.accepted == y.accepted && y'.outgoing == y.outgoing && y'.pushed == y.pushed
            && y'.dispatched == y.dispatched && y'.dispatcher == y.dispatcher
  {
  }

  lemma SameDecisions(names: seq<string>, y: System, y': System)
    requires Decided(names, y) && y'.accepted == y.accepted && y'.outgoing == y.outgoing && y'.pushed == y.pushed
    requires y'.dispatched == y.dispatched && Pending(y'.dispatcher) == Pending(y.dispatcher)
    ensures Decided(names, y')
  {
  }

  lemma StepKeepsDecided(names: seq<string>, y: System, step: Step)
    requires MessagesKept(y) && Numbered(y) && WorkersReport(y) && NothingUnfound(names, y)
    requires Decided(names, y) && Enabled(y, step)
    ensures Decided(names, Perform(y, step))
  {
    match step
    case Push(m) => PushKeepsDecided(names, y, m);
    case Dispatch => DispatchKeepsDecided(names, y);
    case Announce => AnnounceKeepsDecided(names, y);
    case SendReport(q) => SendKeepsDecided(names, y, q);
    case _ => OthersKeepDecided(names, y, step);
  }

  lemma AcceptedSymbolIsKnown(names: seq<string>, ms: seq<Message>, t: Task)
    requires t in TasksFrom(names, ms) && t.NewTask?
    ensures t.Symbol() in names
  {
    var i :| 0 <= i < |TasksFrom(names, ms)| && TasksFrom(names, ms)[i] == t;
    var k := TaskCameFrom(names, ms, i);
  }

  lemma KnownWhenExecuted(names: seq<string>, y: System, q: nat)
    requires Decided(names, y) && AllTasksFlow(names, y) && NothingUnfound(names, y)
    requires q < |y.workers| && y.workers[q].Running? && AtHome(names, y.workers[q], q)
    requires !Unfound(y.books, y.workers[q].task)
    ensures y.workers[q].task.Symbol() in names
  {
    var t := y.workers[q].task;
    if t.NewTask? {
      RunningIsNext(names, y, q);
      var all := TasksOf(TasksFrom(names, TakenUp(y)), t.Symbol());
      assert all[|TasksOf(y.executed, t.Symbol())|] == t;
      FilterMembers(TasksFrom(names, TakenUp(y)), For(t.Symbol()));
      AcceptedSymbolIsKnown(names, TakenUp(y), t);
    } else {
      FoundIsKnown(y.books, t);
    }
  }

  lemma ExecuteKeepsFound(names: seq<string>, y: System, q: nat)
    requires NothingUnfound(names, y) && q < |y.workers| && y.workers[q].Running?
    requires !Unfound(y.books, y.workers[q].task) && y.workers[q].task.Symbol() in names
    ensures NothingUnfound(names, ExecuteOn(y, q))
  {
  }

  lemma OthersKeepFound(names: seq<string>, y: System, step: Step)
    requires NothingUnfound(names, y) && Enabled(y, step) && !step.ExecuteTask?
    ensures NothingUnfound(names, Perform(y, step))
  {
    OnlyExecutionTouchesBooks(y, step);
  }

  lemma StepKeepsFound(names: seq<string>, y: System, step: Step)
    requires Routed(names, y) && BooksMatch(names, y) && CancelsFind(names, y.pushed) && InStep(names, y)
    requires Enabled(y, step)
    ensures NothingUnfound(names, Perform(y, step))
  {
    if step.ExecuteTask? {
      assert AtHome(names, y.workers[step.q], step.q);
      assert BookIs(y.books, y.executed, y.workers[step.q].task.Symbol());
      RunningCancelFinds(names, y, step.q);
      KnownWhenExecuted(names, y, step.q);
      ExecuteKeepsFound(names, y, step.q);
    } else {
      OthersKeepFound(names, y, step);
    }
  }

  lemma StepStaysInStep(names: seq<string>, y: System, step: Step)
    requires SystemInvariant(names, y) && CancelsFind(names, y.pushed) && InStep(names, y) && Enabled(y, step)
    ensures InStep(names, Perform(y, step))
  {
    StepKeepsAllTasksFlow(names, y, step);
    StepKeepsDecided(names, y, step);
    StepKeepsFound(names, y, step);
  }

  lemma StepKeepsPushed(y: System, step: Step)
    ensures Apply(y, step).pushed == if step.Push? then y.pushed + [step.message] else y.pushed
  {
  }

  lemma StartInStep(names: seq<string>)
    requires names != []
    ensures InStep(names, Start(names))
  {
    var y := Start(names);
    forall s ensures StillFlows(names, y, Home(names, s), For(s)) {
      HomeIsFirstMention(names, s);
      assert Pipeline(y, Home(names, s)) == [];
    }
  }

  lemma {:induction false} EveryRunIsInStep(names: seq<string>, steps: seq<Step>)
    requires names != [] && CancelsFind(names, After(names, steps).pushed)
    ensures InStep(names, After(names, steps))
  {
    if steps == [] {
      StartInStep(names);
    } else {
      var before, step := steps[..|steps| - 1], steps[|steps| - 1];
      var y := After(names, before);
      StepKeepsPushed(y, step);
      CancelsFindPrefix(names, Apply(y, step).pushed, |y.pushed|);
      assert Apply(y, step).pushed[..|y.pushed|] == y.pushed;
      EveryRunIsInStep(names, before);
      EveryRunIsSafe(names, before);
      if Enabled(y, step) {
        StepStaysInStep(names, y, step);
      }
    }
  }

  /** As long as cancels find their orders one at a time, no worker ever submits: the dispatcher is every task queue's
      only producer. */
  lemma OnlyTheDispatcherSubmits(names: seq<string>, steps: seq<Step>, w: nat)
    requires names != [] && CancelsFind(names, After(names, steps).pushed)
    ensures !Enabled(After(names, steps), Resubmit(w))
  {
    EveryRunIsInStep(names, steps);
  }

  // ---------------------------------------------------------------- the theorem

  /** Nothing is queued, half done or unsent anywhere. */
  predicate Drained(y: System) {
    && y.incoming == [] && y.batch == [] && y.dispatcher.Ready?
    && (forall q :: 0 <= q < |y.queues| ==> y.queues[q] == [])
    && (forall q :: 0 <= q < |y.workers| ==> y.workers[q].Waiting?)
  }

  lemma DrainedTasks(names: seq<string>, y: System, s: string)
    requires Drained(y) && StillFlows(names, y, Home(names, s), For(s))
    ensures TasksOf(y.executed, s) == TasksOf(y.accepted, s)
  {
    var q := Home(names, s);
    assert y.workers[q].Waiting? && y.queues[q] == [];
    assert Pipeline(y, q) == [];
    assert TasksOf(y.executed, s) + [] == TasksOf(y.executed, s);
  }

  lemma DrainedReports(names: seq<string>, y: System, s: string)
    requires Drained(y) && ReportsKept(names, y, s)
    ensures Filter(y.outgoing, FromWorker(s)) == SentReports(History(y, s).log)
  {
    assert y.workers[Home(names, s)].Waiting?;
    assert Filter(y.outgoing, FromWorker(s)) + [] == Filter(y.outgoing, FromWorker(s));
  }

  lemma DrainedSymbol(names: seq<string>, y: System, s: string)
    requires y.accepted == TasksFrom(names, y.pushed) && Drained(y)
    requires CancelsFind(names, y.pushed) && BookIs(y.books, y.executed, s) && ReportsKept(names, y, s)
    requires StillFlows(names, y, Home(names, s), For(s))
    ensures var z := SingleRun(names, y.pushed);
            BookOf(y.books, s) == BookOf(z.books, s)
            && Filter(y.outgoing, FromWorker(s)) == Filter(z.outgoing, FromWorker(s))
  {
    DrainedTasks(names, y, s);
    DrainedReports(names, y, s);
    SingleBookIs(names, y.pushed, s);
  }

  lemma SameBooks(a: map<string, Book>, b: map<string, Book>)
    requires forall s :: s in a <==> s in b
    requires forall s :: BookOf(a, s) == BookOf(b, s)
    ensures a == b
  {
    forall s | s in a ensures a[s] == b[s] {
      assert BookOf(a, s) == BookOf(b, s);
    }
  }

  lemma DrainedAnnouncements(names: seq<string>, y: System)
    requires Decided(names, y) && y.dispatched == |y.pushed| && CancelsFind(names, y.pushed) && y.dispatcher.Ready?
    ensures Filter(y.outgoing, FromDispatcher()) == Filter(SingleRun(names, y.pushed).outgoing, FromDispatcher())
  {
    SingleIsMadeOfHistories(names, y.pushed);
    assert TakenUp(y) == y.pushed;
    assert Filter(y.outgoing, FromDispatcher()) + [] == Filter(y.outgoing, FromDispatcher());
  }

  lemma DrainedAgrees(names: seq<string>, y: System)
    requires InStep(names, y) && BooksMatch(names, y) && MessagesKept(y) && Drained(y) && CancelsFind(names, y.pushed)
    requires forall s :: ReportsKept(names, y, s)
    ensures var z := SingleRun(names, y.pushed);
            && y.books == z.books
            && (forall s :: Filter(y.outgoing, FromWorker(s)) == Filter(z.outgoing, FromWorker(s)))
            && Filter(y.outgoing, FromDispatcher()) == Filter(z.outgoing, FromDispatcher())
  {
    var z := SingleRun(names, y.pushed);
    assert y.pushed[y.dispatched..] == [];
    assert TakenUp(y) == y.pushed;
    DrainedAnnouncements(names, y);
    forall s ensures BookOf(y.books, s) == BookOf(z.books, s)
                  && Filter(y.outgoing, FromWorker(s)) == Filter(z.outgoing, FromWorker(s)) {
      assert BookIs(y.books, y.executed, s) && StillFlows(names, y, Home(names, s), For(s)) && ReportsKept(names, y, s);
      DrainedSymbol(names, y, s);
    }
    forall s ensures s in y.books <==> s in z.books {
      SingleKeepsBooks(names, y.pushed, s);
    }
    SameBooks(y.books, z.books);
  }

  /** Whatever the interleaving, once everything is drained the multithreaded engine holds exactly the books, and has
      sent exactly the per-symbol fill and cancel reports and the acceptances and rejections, of the single-threaded
      mode on the same messages - provided those messages' cancels find their orders when executed one at a time. */
  lemma MultithreadedEqualsSingleThreaded(names: seq<string>, steps: seq<Step>)
    requires names != []
    requires CancelsFind(names, After(names, steps).pushed) && Drained(After(names, steps))
    ensures var y := After(names, steps); var z := SingleRun(names, y.pushed);
            && y.books == z.books
            && (forall s :: Filter(y.outgoing, FromWorker(s)) == Filter(z.outgoing, FromWorker(s)))
            && Filter(y.outgoing, FromDispatcher()) == Filter(z.outgoing, FromDispatcher())
  {
    EveryRunIsInStep(names, steps);
    EveryRunIsSafe(names, steps);
    DrainedAgrees(names, After(names, steps));
  }
}
