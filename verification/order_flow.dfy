/** New orders flow from the dispatcher through the work queues without loss, duplication or reordering,
    numbered in the order in which they were pushed. */
module OrderFlow {
  import opened Filters
  import opened SymbolRuns
  import opened Priority
  import opened TradingSystem
  import opened SystemSafety

  // ---------------------------------------------------------------- messages

  /** Every pushed message is either taken up already, in the detached batch, or still queued, in push order. */
  ghost predicate MessagesKept(y: System) {
    y.dispatched <= |y.pushed| && y.pushed[y.dispatched..] == y.batch + y.incoming
  }

  /** The messages the dispatcher has taken up. */
  function TakenUp(y: System): seq<Message>
    requires y.dispatched <= |y.pushed|
  {
    y.pushed[..y.dispatched]
  }

  lemma PushKeepsMessages(y: System, m: Message)
    requires MessagesKept(y)
    ensures MessagesKept(y.(incoming := y.incoming + [m], pushed := y.pushed + [m]))
  {
    assert (y.pushed + [m])[y.dispatched..] == y.pushed[y.dispatched..] + [m];
    assert y.batch + (y.incoming + [m]) == y.batch + y.incoming + [m];
  }

  lemma DispatchKeepsMessages(y: System)
    requires MessagesKept(y) && Enabled(y, Dispatch)
    ensures MessagesKept(DispatchOne(y))
  {
    assert y.pushed[y.dispatched + 1..] == y.pushed[y.dispatched..][1..];
    assert (y.batch + y.incoming)[1..] == y.batch[1..] + y.incoming;
  }

  lemma StepKeepsMessages(y: System, step: Step)
    requires MessagesKept(y)
    ensures MessagesKept(Apply(y, step))
  {
    if Enabled(y, step) {
      if step.Push? {
        PushKeepsMessages(y, step.message);
      } else if step.Dispatch? {
        DispatchKeepsMessages(y);
      } else if step.Flush? {
        assert y.batch + y.incoming == y.incoming + [];
      } else {
        var y' := Perform(y, step);
        assert y'.pushed == y.pushed && y'.batch == y.batch && y'.incoming == y.incoming
            && y'.dispatched == y.dispatched;
      }
    }
  }

  // ---------------------------------------------------------------- numbering

  /** Arrival numbers below this one have been announced. */
  function Bound(y: System): int { if y.dispatcher.Announcing? then y.dispatched - 1 else y.dispatched }

  predicate NewBelow(ts: seq<Task>, n: int) {
    forall i :: 0 <= i < |ts| && ts[i].NewTask? ==> ts[i].order.arrival < n
  }

  predicate DispatcherNumbered(y: System) {
    match y.dispatcher
    case Ready => true
    case Announcing(r, next) =>
      && y.dispatched > 0 && r.order.arrival == y.dispatched - 1
      && (next.Some? ==> next.value.NewTask? && r == Accepted(next.value.order) && next.value in y.accepted)
      && (next.None? ==> r == Rejected(r.order) && NewBelow(y.accepted, y.dispatched - 1))
    case Submitting(t) => t in y.accepted
  }

  predicate WorkerBelow(w: Worker, n: int) { w.Running? && w.task.NewTask? ==> w.task.order.arrival < n }

  /** Accepted orders are numbered in dispatch order; nothing past the dispatcher carries an unannounced number. */
  ghost predicate Numbered(y: System) {
    && NumberedInOrder(y.accepted) && NumberedBelow(y.accepted, y.dispatched)
    && DispatcherNumbered(y)
    && NewBelow(y.executed, Bound(y))
    && (forall q :: 0 <= q < |y.queues| ==> NewBelow(y.queues[q], Bound(y)))
    && (forall q :: 0 <= q < |y.workers| ==> WorkerBelow(y.workers[q], Bound(y)))
  }

  lemma AcceptKeepsOrder(ts: seq<Task>, t: Task, n: nat)
    requires NumberedInOrder(ts) && NumberedBelow(ts, n) && (t.NewTask? ==> t.order.arrival == n)
    ensures NumberedInOrder(ts + [t]) && NumberedBelow(ts + [t], n + 1)
  {
  }

  lemma DispatchKeepsNumbered(y: System)
    requires Numbered(y) && Enabled(y, Dispatch)
    ensures Numbered(DispatchOne(y))
  {
    var y' := DispatchOne(y);
    assert Bound(y') >= Bound(y);
    if |y'.accepted| > |y.accepted| {
      AcceptKeepsOrder(y.accepted, y'.accepted[|y.accepted|], y.dispatched);
      assert y'.accepted[|y.accepted|] in y'.accepted;
    }
  }

  lemma SubmitKeepsNumbered(y: System, t: Task)
    requires Numbered(y) && (t.NewTask? ==> t.order.arrival < Bound(y))
    ensures Numbered(SubmitTo(y, t))
  {
    var q := Route(y.queueOf, t.Symbol());
    if q < |y.queues| {
      assert NewBelow(y.queues[q], Bound(y));
      assert NewBelow(y.queues[q] + [t], Bound(y));
    }
  }

  lemma SubmittedIsBelow(y: System)
    requires Numbered(y) && y.dispatcher.Submitting?
    ensures y.dispatcher.task.NewTask? ==> y.dispatcher.task.order.arrival < y.dispatched
  {
    var i :| 0 <= i < |y.accepted| && y.accepted[i] == y.dispatcher.task;
  }

  lemma PopKeepsNumbered(y: System, q: nat)
    requires Numbered(y) && CanPop(y, q)
    ensures Numbered(PopOn(y, q))
  {
    assert NewBelow(y.queues[q], Bound(y));
    assert NewBelow(y.queues[q][1..], Bound(y));
  }

  lemma ExecuteKeepsNumbered(y: System, q: nat)
    requires Numbered(y) && q < |y.workers| && y.workers[q].Running?
    ensures Numbered(ExecuteOn(y, q))
  {
    assert WorkerBelow(y.workers[q], Bound(y));
    assert NewBelow(y.executed + [y.workers[q].task], Bound(y));
  }

  lemma SendKeepsNumbered(y: System, q: nat)
    requires Numbered(y) && q < |y.workers| && y.workers[q].Reporting?
    ensures Numbered(SendOn(y, q))
  {
  }

  lemma AnnounceKeepsNumbered(y: System)
    requires Numbered(y) && y.dispatcher.Announcing?
    ensures Numbered(AnnounceOne(y))
  {
    var y' := AnnounceOne(y);
    assert Bound(y') == Bound(y) + 1;
    forall q | 0 <= q < |y.queues| ensures NewBelow(y'.queues[q], Bound(y')) {
      assert NewBelow(y.queues[q], Bound(y));
    }
    forall q | 0 <= q < |y.workers| ensures WorkerBelow(y'.workers[q], Bound(y')) {
      assert WorkerBelow(y.workers[q], Bound(y));
    }
  }

  lemma StepKeepsNumbered(names: seq<string>, y: System, step: Step)
    requires Routed(names, y) && Numbered(y)
    ensures Numbered(Apply(y, step))
  {
    if Enabled(y, step) {
      match step
      case Push(_) =>
      case Flush =>
      case Dispatch => DispatchKeepsNumbered(y);
      case Announce => AnnounceKeepsNumbered(y);
      case Submit =>
        SubmittedIsBelow(y);
        SubmitKeepsNumbered(y.(dispatcher := Ready), y.dispatcher.task);
      case Pop(q) => PopKeepsNumbered(y, q);
      case ExecuteTask(q) => ExecuteKeepsNumbered(y, q);
      case SendReport(q) => SendKeepsNumbered(y, q);
      case Resubmit(q) =>
        assert AtHome(names, y.workers[q], q);
        SubmitKeepsNumbered(y.(workers := y.workers[q := Waiting]), y.workers[q].task);
    }
  }

  // ---------------------------------------------------------------- flow

  function DispatcherTask(d: Dispatcher): seq<Task> {
    match d
    case Ready => []
    case Announcing(_, next) => if next.Some? then [next.value] else []
    case Submitting(t) => [t]
  }

  function WorkerTask(w: Worker): seq<Task> { if w.Running? then [w.task] else [] }

  /** The tasks on their way through worker `q`, oldest first. */
  function Pipeline(y: System, q: nat): seq<Task>
    requires q < |y.workers| && q < |y.queues|
  {
    WorkerTask(y.workers[q]) + y.queues[q] + DispatcherTask(y.dispatcher)
  }

  /** A selection of tasks of symbols whose home is `q`. */
  ghost predicate SelectsHome(names: seq<string>, keep: Task -> bool, q: nat) {
    forall t :: keep(t) ==> Home(names, t.Symbol()) == q
  }

  /** Executed, then in the pipeline: together the selected tasks accepted so far, in order. */
  ghost predicate Adds(executed: seq<Task>, pipeline: seq<Task>, accepted: seq<Task>, keep: Task -> bool) {
    Filter(executed, keep) + Filter(pipeline, keep) == Filter(accepted, keep)
  }

  ghost predicate Flows(y: System, q: nat, keep: Task -> bool)
    requires q < |y.workers| && q < |y.queues|
  {
    Adds(y.executed, Pipeline(y, q), y.accepted, keep)
  }

  lemma AddsTail(executed: seq<Task>, pipeline: seq<Task>, accepted: seq<Task>, tail: seq<Task>, keep: Task -> bool)
    requires Adds(executed, pipeline, accepted, keep)
    ensures Adds(executed, pipeline + tail, accepted + tail, keep)
  {
    FilterAppend(pipeline, tail, keep);
    FilterAppend(accepted, tail, keep);
    ConcatAssoc(Filter(executed, keep), Filter(pipeline, keep), Filter(tail, keep));
  }

  lemma AddsMoves(executed: seq<Task>, t: Task, pipeline: seq<Task>, accepted: seq<Task>, keep: Task -> bool)
    requires Adds(executed, [t] + pipeline, accepted, keep)
    ensures Adds(executed + [t], pipeline, accepted, keep)
  {
    FilterAppend(executed, [t], keep);
    FilterAppend([t], pipeline, keep);
    ConcatAssoc(Filter(executed, keep), Filter([t], keep), Filter(pipeline, keep));
  }

  lemma AddsOther(executed: seq<Task>, t: Task, pipeline: seq<Task>, accepted: seq<Task>, keep: Task -> bool)
    requires Adds(executed, pipeline, accepted, keep) && !keep(t)
    ensures Adds(executed + [t], pipeline, accepted, keep)
  {
    FilterSnoc(executed, t, keep);
    assert Filter(executed, keep) + [] == Filter(executed, keep);
  }

  /** Removing an unselected task from, or adding one to, the middle of the pipeline. */
  lemma SkipsUnselected(a: seq<Task>, t: Task, b: seq<Task>, keep: Task -> bool)
    requires !keep(t)
    ensures Filter(a + [t] + b, keep) == Filter(a + b, keep)
  {
    FilterAppend(a + [t], b, keep);
    FilterSnoc(a, t, keep);
    FilterAppend(a, b, keep);
    assert Filter(a, keep) + [] == Filter(a, keep);
  }

  lemma AddsSkips(executed: seq<Task>, pipeline: seq<Task>, t: Task, accepted: seq<Task>, keep: Task -> bool)
    requires Adds(executed, pipeline + [t], accepted, keep) && !keep(t)
    ensures Adds(executed, pipeline, accepted, keep)
  {
    FilterSnoc(pipeline, t, keep);
  }

  lemma DispatchParts(y: System, q: nat)
    requires q < |y.workers| && q < |y.queues| && Enabled(y, Dispatch)
    ensures var y' := DispatchOne(y); var tail := DispatcherTask(y'.dispatcher);
            && y'.executed == y.executed && y'.accepted == y.accepted + tail
            && Pipeline(y', q) == Pipeline(y, q) + tail
  {
    assert Pipeline(y, q) == WorkerTask(y.workers[q]) + y.queues[q];
  }

  lemma SubmitParts(names: seq<string>, y: System, q: nat)
    requires Routed(names, y) && q < |names| && y.dispatcher.Submitting?
    ensures var y' := Perform(y, Submit); var t := y.dispatcher.task;
            && |y'.workers| == |y'.queues| == |names| && y'.executed == y.executed && y'.accepted == y.accepted
            && (Home(names, t.Symbol()) == q ==> Pipeline(y', q) == Pipeline(y, q))
            && (Home(names, t.Symbol()) != q ==> Pipeline(y, q) == Pipeline(y', q) + [t])
  {
    SubmitLandsAtHome(names, y.(dispatcher := Ready), y.dispatcher.task);
  }

  lemma PopParts(y: System, q: nat, w: nat)
    requires q < |y.workers| && q < |y.queues| && CanPop(y, w)
    ensures var y' := PopOn(y, w);
            y'.executed == y.executed && y'.accepted == y.accepted && Pipeline(y', q) == Pipeline(y, q)
  {
    if w == q {
      assert y.queues[q] == [y.queues[q][0]] + y.queues[q][1..];
    }
  }

  lemma ExecuteParts(y: System, q: nat, w: nat)
    requires q < |y.workers| && q < |y.queues| && w < |y.workers| && y.workers[w].Running?
    ensures var y' := ExecuteOn(y, w); var t := y.workers[w].task;
            && y'.executed == y.executed + [t] && y'.accepted == y.accepted
            && Pipeline(y, q) == if w == q then [t] + Pipeline(y', q) else Pipeline(y', q)
  {
  }

  lemma ResubmitParts(names: seq<string>, y: System, q: nat, w: nat)
    requires Routed(names, y) && q < |names| && w < |names| && y.workers[w].Resubmitting?
    ensures var y' := ResubmitOn(y, w); var t := y.workers[w].task; var front := WorkerTask(y.workers[q]) + y.queues[q];
            && |y'.workers| == |y'.queues| == |names| && y'.executed == y.executed && y'.accepted == y.accepted
            && Pipeline(y, q) == front + DispatcherTask(y.dispatcher)
            && (Pipeline(y', q) == Pipeline(y, q) || Pipeline(y', q) == front + [t] + DispatcherTask(y.dispatcher))
  {
    SubmitLandsAtHome(names, y.(workers := y.workers[w := Waiting]), y.workers[w].task);
  }

  lemma SubmitFlows(names: seq<string>, y: System, q: nat, keep: Task -> bool)
    requires Routed(names, y) && q < |names| && y.dispatcher.Submitting? && Flows(y, q, keep)
        && SelectsHome(names, keep, q)
    ensures var y' := Perform(y, Submit); |y'.workers| == |y'.queues| == |names| && Flows(y', q, keep)
  {
    var t, y' := y.dispatcher.task, Perform(y, Submit);
    SubmitParts(names, y, q);
    if Home(names, t.Symbol()) != q {
      assert !keep(t);
      AddsSkips(y.executed, Pipeline(y', q), t, y.accepted, keep);
    }
  }

  lemma ExecuteFlows(names: seq<string>, y: System, q: nat, w: nat, keep: Task -> bool)
    requires Routed(names, y) && q < |names| && w < |names| && y.workers[w].Running?
    requires Flows(y, q, keep) && SelectsHome(names, keep, q)
    ensures Flows(ExecuteOn(y, w), q, keep)
  {
    var t, y' := y.workers[w].task, ExecuteOn(y, w);
    ExecuteParts(y, q, w);
    if w == q {
      AddsMoves(y.executed, t, Pipeline(y', q), y.accepted, keep);
    } else {
      assert AtHome(names, y.workers[w], w);
      AddsOther(y.executed, t, Pipeline(y', q), y.accepted, keep);
    }
  }

  lemma ResubmitFlows(names: seq<string>, y: System, q: nat, w: nat, keep: Task -> bool)
    requires Routed(names, y) && q < |names| && w < |names| && y.workers[w].Resubmitting? && !keep(y.workers[w].task)
    requires Flows(y, q, keep)
    ensures var y' := ResubmitOn(y, w); |y'.workers| == |y'.queues| == |names| && Flows(y', q, keep)
  {
    ResubmitParts(names, y, q, w);
    SkipsUnselected(WorkerTask(y.workers[q]) + y.queues[q], y.workers[w].task, DispatcherTask(y.dispatcher), keep);
  }

  lemma AnnounceParts(y: System, q: nat)
    requires q < |y.workers| && q < |y.queues| && y.dispatcher.Announcing?
    ensures Pipeline(AnnounceOne(y), q) == Pipeline(y, q)
  {
  }

  lemma SendParts(y: System, q: nat, w: nat)
    requires q < |y.workers| && q < |y.queues| && w < |y.workers| && y.workers[w].Reporting?
    ensures Pipeline(SendOn(y, w), q) == Pipeline(y, q)
  {
  }

  ghost predicate StillFlows(names: seq<string>, y: System, q: nat, keep: Task -> bool) {
    q < |names| == |y.workers| == |y.queues| && Flows(y, q, keep)
  }

  lemma TailFlows(names: seq<string>, y: System, y': System, tail: seq<Task>, q: nat, keep: Task -> bool)
    requires StillFlows(names, y, q, keep) && |y'.workers| == |y'.queues| == |names|
    requires y'.executed == y.executed && y'.accepted == y.accepted + tail && Pipeline(y', q) == Pipeline(y, q) + tail
    ensures StillFlows(names, y', q, keep)
  {
    AddsTail(y.executed, Pipeline(y, q), y.accepted, tail, keep);
  }

  lemma SameFlows(names: seq<string>, y: System, y': System, q: nat, keep: Task -> bool)
    requires StillFlows(names, y, q, keep) && |y'.workers| == |y'.queues| == |names|
    requires y'.executed == y.executed && y'.accepted == y.accepted && Pipeline(y', q) == Pipeline(y, q)
    ensures StillFlows(names, y', q, keep)
  {
  }

  lemma QuietParts(names: seq<string>, y: System, step: Step, q: nat)
    requires q < |names| == |y.workers| == |y.queues| && Enabled(y, step)
    requires step.Push? || step.Flush? || step.Announce? || step.Pop? || step.SendReport?
    ensures var y' := Perform(y, step);
            && |y'.workers| == |y'.queues| == |names|
            && y'.executed == y.executed && y'.accepted == y.accepted && Pipeline(y', q) == Pipeline(y, q)
  {
    match step
    case Pop(w) => PopParts(y, q, w);
    case Announce => AnnounceParts(y, q);
    case SendReport(w) => SendParts(y, q, w);
    case _ =>
  }

  lemma DispatchFlows(names: seq<string>, y: System, q: nat, keep: Task -> bool)
    requires StillFlows(names, y, q, keep) && Enabled(y, Dispatch)
    ensures StillFlows(names, DispatchOne(y), q, keep)
  {
    DispatchParts(y, q);
    TailFlows(names, y, DispatchOne(y), DispatcherTask(DispatchOne(y).dispatcher), q, keep);
  }

  lemma QuietFlows(names: seq<string>, y: System, step: Step, q: nat, keep: Task -> bool)
    requires StillFlows(names, y, q, keep) && Enabled(y, step)
    requires step.Push? || step.Flush? || step.Announce? || step.Pop? || step.SendReport?
    ensures StillFlows(names, Perform(y, step), q, keep)
  {
    QuietParts(names, y, step, q);
    SameFlows(names, y, Perform(y, step), q, keep);
  }

  lemma StepFlows(names: seq<string>, y: System, step: Step, q: nat, keep: Task -> bool)
    requires Routed(names, y) && Enabled(y, step) && q < |names|
    requires Flows(y, q, keep) && SelectsHome(names, keep, q)
    requires step.Resubmit? ==> !keep(y.workers[step.q].task)
    ensures StillFlows(names, Perform(y, step), q, keep)
  {
    match step
    case Push(_) => QuietFlows(names, y, step, q, keep);
    case Flush => QuietFlows(names, y, step, q, keep);
    case Dispatch => DispatchFlows(names, y, q, keep);
    case Announce => QuietFlows(names, y, step, q, keep);
    case Submit => SubmitFlows(names, y, q, keep);
    case Pop(_) => QuietFlows(names, y, step, q, keep);
    case ExecuteTask(w) => ExecuteFlows(names, y, q, w, keep);
    case SendReport(_) => QuietFlows(names, y, step, q, keep);
    case Resubmit(w) => ResubmitFlows(names, y, q, w, keep);
  }

  /** For every symbol, its new orders are executed in the order they were accepted, none lost or duplicated. */
  ghost predicate NewOrdersFlow(names: seq<string>, y: System) {
    forall s :: StillFlows(names, y, Home(names, s), NewFor(s))
  }

  lemma StepKeepsNewOrdersFlow(names: seq<string>, y: System, step: Step)
    requires Routed(names, y) && Enabled(y, step) && NewOrdersFlow(names, y)
    ensures NewOrdersFlow(names, Perform(y, step))
  {
    var y' := Perform(y, step);
    assert step.Resubmit? ==> AtHome(names, y.workers[step.q], step.q);
    forall s ensures StillFlows(names, y', Home(names, s), NewFor(s)) {
      assert StillFlows(names, y, Home(names, s), NewFor(s));
      StepFlows(names, y, step, Home(names, s), NewFor(s));
    }
  }
}
