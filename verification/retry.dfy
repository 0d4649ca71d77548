/** A cancel that did not find its order goes to the back of its queue; what that buys it. */
module Retry {
  import opened Options
  import opened Filters
  import opened Orders
  import opened Books
  import opened Matching
  import opened SymbolRuns
  import opened OrderLives
  import opened Priority
  import opened TradingSystem
  import opened SystemSafety
  import opened OrderFlow
  import opened ReportStreams
  import opened ClientStreams

  // ---------------------------------------------------------------- queues are first in, first out

  /** Everything ever put into queue `q`, in order: what was taken out, then what is still there. */
  function PutInto(y: System, q: nat): seq<Task>
    requires q < |y.popped| && q < |y.queues|
  {
    y.popped[q] + y.queues[q]
  }

  ghost predicate Later(y: System, y': System, q: nat) {
    && q < |y.popped| == |y'.popped| && q < |y.queues| == |y'.queues|
    && PutInto(y, q) <= PutInto(y', q) && y.popped[q] <= y'.popped[q]
  }

  lemma StepIsLater(names: seq<string>, y: System, step: Step, q: nat)
    requires Shaped(names, y) && q < |names|
    ensures Later(y, Apply(y, step), q)
  {
    if Enabled(y, step) {
      match step
      case Pop(w) =>
        if w == q {
          assert y.queues[q] == [y.queues[q][0]] + y.queues[q][1..];
          ConcatAssoc(y.popped[q], [y.queues[q][0]], y.queues[q][1..]);
        }
      case Submit => SubmitIsLater(names, y.(dispatcher := Ready), y.dispatcher.task, q);
      case Resubmit(w) => SubmitIsLater(names, y.(workers := y.workers[w := Waiting]), y.workers[w].task, q);
      case _ =>
    }
  }

  lemma SubmitIsLater(names: seq<string>, y: System, t: Task, q: nat)
    requires Shaped(names, y) && q < |names|
    ensures Later(y, SubmitTo(y, t), q)
  {
    SubmitLandsAtHome(names, y, t);
    ConcatAssoc(y.popped[q], y.queues[q], [t]);
  }

  lemma {:induction false} RunIsLater(names: seq<string>, y: System, steps: seq<Step>, q: nat)
    requires SystemInvariant(names, y) && q < |names|
    ensures SystemInvariant(names, RunFrom(y, steps)) && Later(y, RunFrom(y, steps), q)
  {
    if steps != [] {
      var before := steps[..|steps| - 1];
      RunIsLater(names, y, before, q);
      StepIsLater(names, RunFrom(y, before), steps[|steps| - 1], q);
      StepKeepsInvariant(names, RunFrom(y, before), steps[|steps| - 1]);
    }
  }

  // ---------------------------------------------------------------- a worker executes what it takes

  function AtQueue(names: seq<string>, q: nat): Task -> bool { (t: Task) => Home(names, t.Symbol()) == q }

  /** Worker `q` has executed exactly what it took from its queue, in order, but for the one it is running. */
  ghost predicate ExecutedInOrder(names: seq<string>, y: System, q: nat) {
    && q < |y.workers| && q < |y.popped|
    && y.popped[q] == Filter(y.executed, AtQueue(names, q)) + WorkerTask(y.workers[q])
  }

  lemma ExecuteInOrder(names: seq<string>, y: System, w: nat, q: nat)
    requires w < |y.workers| && y.workers[w].Running? && AtHome(names, y.workers[w], w) && ExecutedInOrder(names, y, q)
    ensures ExecutedInOrder(names, ExecuteOn(y, w), q)
  {
    var t := y.workers[w].task;
    FilterSnoc(y.executed, t, AtQueue(names, q));
    assert AtQueue(names, q)(t) <==> w == q;
    if w == q {
      var done := Filter(y.executed, AtQueue(names, q)) + [t];
      assert done + WorkerTask(WorkerAfter(y.books, t)) == done;
    }
  }

  lemma PopInOrder(names: seq<string>, y: System, w: nat, q: nat)
    requires CanPop(y, w) && ExecutedInOrder(names, y, q)
    ensures ExecutedInOrder(names, PopOn(y, w), q)
  {
    assert Filter(y.executed, AtQueue(names, q)) + [] == Filter(y.executed, AtQueue(names, q));
  }

  lemma QuietWorkers(y: System, step: Step, q: nat)
    requires Enabled(y, step) && !step.Pop? && !step.ExecuteTask? && q < |y.workers|
    ensures var y' := Perform(y, step);
            |y'.workers| == |y.workers| && y'.popped == y.popped
                && WorkerTask(y'.workers[q]) == WorkerTask(y.workers[q])
  {
    match step
    case Submit =>
    case Resubmit(w) =>
    case _ =>
  }

  lemma OtherStepInOrder(names: seq<string>, y: System, step: Step, q: nat)
    requires Enabled(y, step) && !step.Pop? && !step.ExecuteTask? && ExecutedInOrder(names, y, q)
    ensures ExecutedInOrder(names, Perform(y, step), q)
  {
    OnlyExecutionTouchesBooks(y, step);
    QuietWorkers(y, step, q);
  }

  lemma StepInOrder(names: seq<string>, y: System, step: Step, q: nat)
    requires Routed(names, y) && ExecutedInOrder(names, y, q)
    ensures ExecutedInOrder(names, Apply(y, step), q)
  {
    if Enabled(y, step) {
      if step.Pop? {
        PopInOrder(names, y, step.q, q);
      } else if step.ExecuteTask? {
        assert AtHome(names, y.workers[step.q], step.q);
        ExecuteInOrder(names, y, step.q, q);
      } else {
        OtherStepInOrder(names, y, step, q);
      }
    }
  }

  lemma {:induction false} EveryRunIsInOrder(names: seq<string>, steps: seq<Step>, q: nat)
    requires q < |names|
    ensures ExecutedInOrder(names, After(names, steps), q)
  {
    if steps == [] {
      assert Filter([], AtQueue(names, q)) == [];
    } else {
      EveryRunIsInOrder(names, steps[..|steps| - 1], q);
      EveryRunIsSafe(names, steps[..|steps| - 1]);
      StepInOrder(names, After(names, steps[..|steps| - 1]), steps[|steps| - 1], q);
    }
  }

  /** A cancel is put back exactly as it was taken. */
  ghost predicate PutsBackWhatItTook(y: System, q: nat) {
    && q < |y.workers| && q < |y.popped|
    && (y.workers[q].Resubmitting? ==>
          y.popped[q] != [] && y.popped[q][|y.popped[q]| - 1] == y.workers[q].task)
  }

  lemma OthersPutNothingBack(y: System, step: Step, q: nat)
    requires Enabled(y, step) && step != ExecuteTask(q) && q < |y.workers| && q < |y.popped|
    ensures var y' := Perform(y, step);
            && q < |y'.workers| && q < |y'.popped|
            && (y'.workers[q].Resubmitting? ==> y'.workers[q] == y.workers[q] && y'.popped[q] == y.popped[q])
  {
    match step
    case Submit =>
    case Resubmit(w) =>
    case _ =>
  }

  lemma {:induction false} EveryRunPutsBackWhatItTook(names: seq<string>, steps: seq<Step>, q: nat)
    requires q < |names|
    ensures PutsBackWhatItTook(After(names, steps), q)
  {
    if steps != [] {
      var before, step := steps[..|steps| - 1], steps[|steps| - 1];
      var y := After(names, before);
      EveryRunPutsBackWhatItTook(names, before, q);
      EveryRunIsInOrder(names, before, q);
      if Enabled(y, step) && step != ExecuteTask(q) {
        OthersPutNothingBack(y, step, q);
      }
    }
  }

  lemma ReachableIsSafe(names: seq<string>, y: System, q: nat)
    requires names != [] && Reachable(names, y) && q < |names|
    ensures SystemInvariant(names, y) && ExecutedInOrder(names, y, q)
  {
    var steps :| y == After(names, steps);
    EveryRunIsSafe(names, steps);
    EveryRunIsInOrder(names, steps, q);
  }

  /** Where a cancel on the book `b` looks. */
  function Searched(b: Book, t: Task): seq<Order>
    requires t.CancelTask?
  {
    if t.side == BUY then b.bids else b.asks
  }

  /** The task's owner and client ID are on order `i`, and on none before it. */
  predicate FirstMatch(s: seq<Order>, t: Task, i: nat)
    requires t.CancelTask?
  {
    && i < |s| && s[i].owner == t.owner && s[i].clientID == t.origID
    && forall k :: 0 <= k < i ==> s[k].owner != t.owner || s[k].clientID != t.origID
  }

  lemma FoundIsFirst(b: Book, t: Task, i: nat)
    requires t.CancelTask? && FirstMatch(Searched(b, t), t, i)
    ensures FindOn(b.On(t.side), t.owner, t.origID) == Some(i)
  {
  }

  lemma CancelAlone(b: Book, t: Task, i: nat)
    requires t.CancelTask? && FindOn(b.On(t.side), t.owner, t.origID) == Some(i)
    ensures var s, r := b.On(t.side), RunCancel(SymbolState(b, []), t);
            && r.log == [Sent(Report(s[i].(cancelled := true), CANCELED, "Order canceled"))]
            && r.book == b.With(t.side, s[..i] + s[i + 1..])
  {
    EraseRemovesFound(b, t.owner, t.origID, t.side, i);
  }

  lemma OneSent(r: Report)
    ensures SentReports([Sent(r)]) == [r]
  {
    assert [Sent(r)][..0] == [];
  }

  /** What a cancel does when a worker runs it and the first order on its side of the symbol's book with its owner and
      client ID is number `i`: that one is taken out, and one report says so. */
  lemma ExecutedCancelReports(y: System, q: nat, i: nat)
    requires q < |y.workers| && y.workers[q].Running? && y.workers[q].task.CancelTask?
    requires var t := y.workers[q].task; FirstMatch(Searched(BookOf(y.books, t.symbol), t), t, i)
    ensures var t, y' := y.workers[q].task, ExecuteOn(y, q);
            var b, s := BookOf(y.books, t.symbol), Searched(BookOf(y.books, t.symbol), t);
            && y'.workers[q] == Reporting([Report(s[i].(cancelled := true), CANCELED, "Order canceled")])
            && BookOf(y'.books, t.symbol) == if t.side == BUY then RawBook(s[..i] + s[i + 1..], b.asks)
                                             else RawBook(b.bids, s[..i] + s[i + 1..])
  {
    var t := y.workers[q].task;
    var b := BookOf(y.books, t.symbol);
    FoundIsFirst(b, t, i);
    CancelAlone(b, t, i);
    OneSent(Report(b.On(t.side)[i].(cancelled := true), CANCELED, "Order canceled"));
    assert !Unfound(y.books, t);
  }

  /** And if no order there has both: the book stays, and the very same cancel is about to be put back. */
  lemma ExecutedCancelIsPutBack(y: System, q: nat)
    requires q < |y.workers| && y.workers[q].Running? && y.workers[q].task.CancelTask?
    requires var t := y.workers[q].task; forall i :: !FirstMatch(Searched(BookOf(y.books, t.symbol), t), t, i)
    ensures var t, y' := y.workers[q].task, ExecuteOn(y, q);
            y'.workers[q] == Resubmitting(t) && BookOf(y'.books, t.symbol) == BookOf(y.books, t.symbol)
  {
    var t := y.workers[q].task;
    var b := BookOf(y.books, t.symbol);
    var found := FindOn(b.On(t.side), t.owner, t.origID);
    if found.Some? {
      assert FirstMatch(Searched(b, t), t, found.value);
    }
  }

  // ---------------------------------------------------------------- the retry

  /** In `y` worker `q` is about to put a cancel back; in `later` that copy has come round and is running. */
  ghost predicate ComesRound(names: seq<string>, y: System, steps: seq<Step>, q: nat) {
    && names != [] && Reachable(names, y) && q < |y.workers| == |y.popped| == |y.queues| == |names|
    && y.workers[q].Resubmitting?
    && var later := RunFrom(Apply(y, Resubmit(q)), steps);
       && q < |later.workers| && q < |later.popped|
       && later.workers[q].Running? && |later.popped[q]| == |PutInto(y, q)| + 1
  }

  lemma PutBackLast(names: seq<string>, y: System, q: nat)
    requires Routed(names, y) && q < |names| && y.workers[q].Resubmitting?
    ensures var y1 := ResubmitOn(y, q);
            && q < |y1.popped| && q < |y1.queues|
            && PutInto(y1, q) == PutInto(y, q) + [y.workers[q].task]
  {
    assert AtHome(names, y.workers[q], q);
    SubmitLandsAtHome(names, y.(workers := y.workers[q := Waiting]), y.workers[q].task);
    ConcatAssoc(y.popped[q], y.queues[q], [y.workers[q].task]);
  }

  lemma PrefixByLength<T>(a: seq<T>, b: seq<T>, whole: seq<T>)
    requires a <= whole && b <= whole && |a| == |b|
    ensures a == b
  {
  }

  lemma RoundTrip(names: seq<string>, y: System, y1: System, later: System, q: nat)
    requires ExecutedInOrder(names, y, q) && ExecutedInOrder(names, later, q) && Later(y1, later, q)
    requires q < |y.queues| && y.workers[q].Resubmitting? && later.workers[q].Running?
    requires PutInto(y1, q) == PutInto(y, q) + [y.workers[q].task] && |later.popped[q]| == |PutInto(y, q)| + 1
    ensures later.workers[q].task == y.workers[q].task
    ensures Filter(later.executed, AtQueue(names, q)) == Filter(y.executed, AtQueue(names, q)) + y.queues[q]
  {
    PrefixByLength(later.popped[q], PutInto(y1, q), PutInto(later, q));
    LastOfEqual(Filter(later.executed, AtQueue(names, q)), later.workers[q].task, PutInto(y, q), y.workers[q].task);
    assert Filter(y.executed, AtQueue(names, q)) + [] == Filter(y.executed, AtQueue(names, q));
  }

  lemma ResubmitIsAStep(names: seq<string>, y: System, q: nat)
    requires Reachable(names, y) && q < |y.workers| && y.workers[q].Resubmitting?
    ensures Apply(y, Resubmit(q)) == ResubmitOn(y, q) && Reachable(names, ResubmitOn(y, q))
  {
    assert Enabled(y, Resubmit(q));
    assert [Resubmit(q)][..0] == [];
    assert RunFrom(y, []) == y;
    assert RunFrom(y, [Resubmit(q)]) == Apply(y, Resubmit(q));
    StaysReachable(names, y, [Resubmit(q)]);
  }

  lemma LaterIsSafe(names: seq<string>, y: System, steps: seq<Step>, q: nat)
    requires names != [] && Reachable(names, y) && q < |names|
    ensures var later := RunFrom(y, steps);
            SystemInvariant(names, later) && ExecutedInOrder(names, later, q) && Later(y, later, q)
  {
    ReachableIsSafe(names, y, q);
    RunIsLater(names, y, steps, q);
    StaysReachable(names, y, steps);
    ReachableIsSafe(names, RunFrom(y, steps), q);
  }

  /** When the copy that worker `q` put back comes round again, the worker has in the meantime executed exactly the
      tasks that were queued in front of it, in order. */
  lemma RetryComesAfterTheQueue(names: seq<string>, y: System, steps: seq<Step>, q: nat)
    requires ComesRound(names, y, steps, q)
    ensures var later := RunFrom(Apply(y, Resubmit(q)), steps);
            && later.workers[q].task == y.workers[q].task
            && Filter(later.executed, AtQueue(names, q)) == Filter(y.executed, AtQueue(names, q)) + y.queues[q]
  {
    ReachableIsSafe(names, y, q);
    ResubmitIsAStep(names, y, q);
    LaterIsSafe(names, ResubmitOn(y, q), steps, q);
    PutBackLast(names, y, q);
    RoundTrip(names, y, ResubmitOn(y, q), RunFrom(ResubmitOn(y, q), steps), q);
  }

  lemma LastOfEqual<T>(a: seq<T>, x: T, b: seq<T>, z: T)
    requires a + [x] == b + [z]
    ensures a == b && x == z
  {
    assert (a + [x])[..|a|] == a && (b + [z])[..|b|] == b;
    assert (a + [x])[|a|] == x && (b + [z])[|b|] == z;
  }

  // ---------------------------------------------------------------- what the retry finds

  lemma {:induction false} MatchForgetsNothing(st: SymbolState)
    ensures st.log <= MatchAll(st).log
    decreases |st.book.bids| + |st.book.asks|
  {
    if Crossed(st.book) {
      MatchForgetsNothing(Trade(st));
    }
  }

  lemma ExecEntersOrForgetsNothing(st: SymbolState, t: Task)
    ensures st.log <= Exec(st, t).log
    ensures t.NewTask? ==> Entered(t.order) in Exec(st, t).log
  {
    if t.NewTask? {
      var r := Enter(st, t.order);
      MatchForgetsNothing(r);
      assert r.log[|r.log| - 1] == Entered(t.order);
    }
  }

  lemma {:induction false} TaskEnters(ts: seq<Task>, o: FreshOrder)
    requires NewTask(o) in ts
    ensures Entered(o) in Run(ts).log
  {
    var before, t := ts[..|ts| - 1], ts[|ts| - 1];
    assert ts == before + [t];
    ExecEntersOrForgetsNothing(Run(before), t);
    if t != NewTask(o) {
      TaskEnters(before, o);
    }
  }

  predicate Cancels(t: Task, o: Order) {
    t.CancelTask? && t.owner == o.owner && t.symbol == o.symbol && t.side == o.side && t.origID == o.clientID
  }

  ghost predicate HasEnded(log: seq<Event>, n: nat) {
    exists r :: r in SentReports(log) && r.IsTerminal() && r.order.arrival == n
  }

  /** Order `o` rests in the book at `k`, and the first entry with the cancel's two identifiers is at `k` or before it;
      before it only where another order shares both identifiers. */
  ghost predicate FoundBy(b: Book, t: Task, o: Order, k: nat)
    requires t.CancelTask?
  {
    && CancelFinds(b, t) && k < |b.On(t.side)| && b.On(t.side)[k].SameIdentity(o)
    && var i := FindOn(b.On(t.side), t.owner, t.origID).value;
       var first := b.On(t.side)[i];
       i <= k && first.owner == o.owner && first.clientID == o.clientID && (i < k ==> first.arrival != o.arrival)
  }

  ghost predicate Finds(b: Book, t: Task, o: Order)
    requires t.CancelTask?
  {
    exists k :: FoundBy(b, t, o, k)
  }

  lemma EnteredOrderIsFound(st: SymbolState, o: Order, t: Task)
    requires Lives(st) && Entered(o) in st.log && Cancels(t, o)
    ensures Finds(st.book, t, o) || HasEnded(st.log, o.arrival)
  {
    EnteredOrderHasAFate(st, o);
    if Alive(Of(st.log, o.arrival)) {
      RestingOrderIsFound(st, o, t);
    } else {
      var j :| 0 <= j < |st.log| && IsTerminalFor(st.log[j], o.arrival);
      SentReportsMembers(st.log);
      assert Sent(st.log[j].report) in st.log;
    }
  }

  lemma RestingOrderIsFound(st: SymbolState, o: Order, t: Task)
    requires Lives(st) && Cancels(t, o) && Alive(Of(st.log, o.arrival))
    requires var latest := Latest(Of(st.log, o.arrival)); latest in st.book.On(o.side) && latest.SameIdentity(o)
    ensures Finds(st.book, t, o)
  {
    var s := st.book.On(o.side);
    var k :| 0 <= k < |s| && s[k] == Latest(Of(st.log, o.arrival));
    assert Names(s[k], t.owner, t.origID);
    var i := FindOn(s, t.owner, t.origID).value;
    if i < k {
      assert s[i] in s && Latest(Of(st.log, s[i].arrival)) == s[i];
      assert TimeOrdered(s) && Ahead(s[i], s[k]);
    }
    assert FoundBy(st.book, t, o, k);
  }

  /** An executed order is found by its cancel, or has already had its terminal report. */
  lemma ExecutedOrderIsFound(names: seq<string>, y: System, o: FreshOrder, t: Task)
    requires Numbered(y) && NewOrdersFlow(names, y) && BookIs(y.books, y.executed, o.symbol)
    requires NewTask(o) in y.executed && Cancels(t, o)
    ensures Finds(BookOf(y.books, o.symbol), t, o) || HasEnded(History(y, o.symbol).log, o.arrival)
  {
    FilterMembers(y.executed, For(o.symbol));
    TaskEnters(TasksOf(y.executed, o.symbol), o);
    HistoryIsSound(names, y, o.symbol);
    EnteredOrderIsFound(History(y, o.symbol), o, t);
  }

  lemma QueuedIsExecuted(names: seq<string>, executed: seq<Task>, done: seq<Task>, queue: seq<Task>, q: nat, t: Task)
    requires Filter(executed, AtQueue(names, q)) == done + queue && t in queue
    ensures t in executed
  {
    assert t in done + queue;
    FilterMembers(executed, AtQueue(names, q));
  }

  /** A cancel that overtook its order and was put back finds an order on the next round if its own was queued by then,
      unless by that time that one has been completely filled or already cancelled: its own, or one in front of it that
      shares both identifiers. */
  lemma RetryFindsQueuedOrder(names: seq<string>, y: System, steps: seq<Step>, q: nat, o: FreshOrder)
    requires ComesRound(names, y, steps, q)
    requires NewTask(o) in y.queues[q] && Cancels(y.workers[q].task, o)
    ensures var later := RunFrom(Apply(y, Resubmit(q)), steps);
            && later.workers[q].task == y.workers[q].task
            && (Finds(BookOf(later.books, o.symbol), later.workers[q].task, o)
                || HasEnded(History(later, o.symbol).log, o.arrival))
  {
    var later := RunFrom(ResubmitOn(y, q), steps);
    RetryComesAfterTheQueue(names, y, steps, q);
    ResubmitIsAStep(names, y, q);
    LaterIsSafe(names, ResubmitOn(y, q), steps, q);
    QueuedIsExecuted(names, later.executed, Filter(y.executed, AtQueue(names, q)), y.queues[q], q, NewTask(o));
    assert BookIs(later.books, later.executed, o.symbol);
    ExecutedOrderIsFound(names, later, o, y.workers[q].task);
  }
}
