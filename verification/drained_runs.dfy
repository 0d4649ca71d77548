/** The equivalence of the two modes is about something: every message sequence whose cancels find their orders has a
    run that pushes exactly it and drains. */
module DrainedRuns {
  import opened Orders
  import opened Matching
  import opened SymbolRuns
  import opened TradingSystem
  import opened SystemSafety
  import opened OrderFlow
  import opened ClientStreams
  import opened SingleThreaded
  import opened Equivalence
  import opened Engines

  /** One message from the session to the dispatcher. */
  lemma PushAndFlush(y: System, m: Message)
    requires Drained(y)
    ensures RunFrom(y, [Push(m), Flush]) == y.(batch := [m], pushed := y.pushed + [m])
  {
    RunFromSnoc(y, [Push(m)], Flush);
    assert [Push(m)] + [Flush] == [Push(m), Flush];
    OneStep(y, Push(m));
  }

  function SingleOf(y: System): Single { Single(y.books, y.outgoing) }

  /** At most one worker has something to do: the home of one symbol, one task. */
  ghost predicate OneToDo(y: System, q: nat, todo: seq<Task>) {
    && y.incoming == [] && y.batch == [] && y.dispatcher.Ready? && Idle(y)
    && (forall w :: 0 <= w < |y.queues| && w != q ==> y.queues[w] == [])
    && q < |y.queues| && y.queues[q] == todo && |todo| <= 1
  }

  /** What the dispatcher submits, and what it reports, for the message `m`. */
  function Todo(y: System, m: Message): seq<Task> {
    match m
    case NewMessage(order) => if order.symbol in y.books then [NewTask(Stamp(order, y.dispatched))] else []
    case CancelMessage(_, _, _, _) => [CancelOf(m)]
  }

  function Told(y: System, m: Message): seq<Report> {
    match m
    case NewMessage(order) =>
      var o := Stamp(order, y.dispatched);
      if o.symbol in y.books then [Accepted(o)] else [Rejected(o)]
    case CancelMessage(_, _, _, _) => []
  }

  lemma DispatchesOne(names: seq<string>, y: System, m: Message)
    requires Shaped(names, y) && Drained(y)
    ensures var y' := RunFrom(RunFrom(y, [Push(m), Flush]), HANDLE);
            var q := Home(names, if m.NewMessage? then m.order.symbol else m.symbol);
            && y'.pushed == y.pushed + [m] && y'.books == y.books && q < |y'.queues|
            && OneToDo(y', q, Todo(y, m))
            && y'.outgoing == y.outgoing + Told(y, m)
  {
    var y1 := RunFrom(y, [Push(m), Flush]);
    PushAndFlush(y, m);
    Handles(names, y1);
    HomeIsFirstMention(names, if m.NewMessage? then m.order.symbol else m.symbol);
  }

  lemma WorksOff(names: seq<string>, y: System, q: nat)
    requires Routed(names, y) && q < |names| && OneToDo(y, q, y.queues[q])
    requires y.queues[q] != [] ==> !Unfound(y.books, y.queues[q][0])
    ensures var y' := RunFrom(y, if y.queues[q] == [] then [] else TurnOf(y, q));
            && Drained(y') && y'.pushed == y.pushed
            && SingleOf(y') == if y.queues[q] == [] then SingleOf(y)
                               else Single(BooksAfter(y.books, y.queues[q][0]),
                                           y.outgoing + SentReports(Executed(y.books, y.queues[q][0]).log))
  {
    if y.queues[q] != [] {
      assert CanPop(y, q);
      Turn(names, y, q);
    }
  }

  lemma DrainedHasDispatchedAll(y: System)
    requires MessagesKept(y) && Drained(y)
    ensures y.dispatched == |y.pushed|
  {
    assert y.pushed[y.dispatched..] == [];
  }

  /** The worker's part of one message. */
  function Rest(y: System, q: nat): seq<Step>
    requires q < |y.queues| && (y.queues[q] != [] ==> CanPop(y, q))
  {
    if y.queues[q] == [] then [] else TurnOf(y, q)
  }

  lemma SettlesOne(names: seq<string>, y: System, y': System, m: Message, q: nat)
    requires Routed(names, y') && y'.books == y.books && y'.outgoing == y.outgoing + Told(y, m)
    requires y.dispatched == |y.pushed| && q < |names| && OneToDo(y', q, Todo(y, m))
    requires m.CancelMessage? ==> !Unfound(y.books, CancelOf(m))
    ensures y'.queues[q] != [] ==> CanPop(y', q)
    ensures var z := RunFrom(y', Rest(y', q));
            && Drained(z) && z.pushed == y'.pushed && SingleOf(z) == SingleStep(SingleOf(y), m, |y.pushed|)
  {
    WorksOff(names, y', q);
  }

  lemma RunAfter(names: seq<string>, a: seq<Step>, b: seq<Step>)
    ensures After(names, a + b) == RunFrom(After(names, a), b)
  {
    RunFromAppend(Start(names), a, b);
  }

  /** A drained run takes one more message, does with it what the single-threaded mode does, and drains again. */
  lemma OneMore(names: seq<string>, steps: seq<Step>, m: Message) returns (more: seq<Step>)
    requires names != [] && Drained(After(names, steps))
    requires m.CancelMessage? ==> !Unfound(After(names, steps).books, CancelOf(m))
    ensures var y, y' := After(names, steps), After(names, more);
            && y'.pushed == y.pushed + [m] && Drained(y')
            && SingleOf(y') == SingleStep(SingleOf(y), m, |y.pushed|)
  {
    var y := After(names, steps);
    var q := Home(names, if m.NewMessage? then m.order.symbol else m.symbol);
    EveryRunIsSafe(names, steps);
    DrainedHasDispatchedAll(y);
    DispatchesOne(names, y, m);
    RunAfter(names, steps, [Push(m), Flush]);
    RunAfter(names, steps + [Push(m), Flush], HANDLE);
    more := steps + [Push(m), Flush] + HANDLE;
    RunIsRouted(names, more);
    var y' := After(names, more);
    SettlesOne(names, y, y', m, q);
    RunAfter(names, more, Rest(y', q));
    more := more + Rest(y', q);
  }

  /** The single-threaded mode is one of the interleavings: whatever the messages, as long as their cancels find their
      orders one at a time, some run pushes exactly them, drains, and ends with the same books and the very same
      outgoing sequence. */
  lemma {:induction false} EveryScriptDrains(names: seq<string>, ms: seq<Message>) returns (steps: seq<Step>)
    requires names != [] && CancelsFind(names, ms)
    ensures After(names, steps).pushed == ms && Drained(After(names, steps))
    ensures SingleOf(After(names, steps)) == SingleRun(names, ms)
  {
    if ms == [] {
      steps := [];
    } else {
      var before, m := ms[..|ms| - 1], ms[|ms| - 1];
      assert ms == before + [m];
      steps := EveryScriptDrains(names, before);
      steps := OneMore(names, steps, m);
    }
  }

  // ---------------------------------------------------------------- a symbol nobody configured

  /** A client's cancel on the symbol of `o`, dispatched and executed. */
  function PhantomSteps(o: FreshOrder): seq<Step> {
    [Push(CancelMessage(o.owner, o.symbol, o.side, o.clientID)), Flush] + HANDLE + [Pop(0), ExecuteTask(0)]
  }

  lemma RunIsRouted(names: seq<string>, steps: seq<Step>)
    requires names != []
    ensures Routed(names, After(names, steps))
  {
    EveryRunIsSafe(names, steps);
  }

  lemma FirstCanPop(names: seq<string>, y: System, q: nat, todo: seq<Task>)
    requires Routed(names, y) && OneToDo(y, q, todo) && todo != []
    ensures CanPop(y, q) && y.queues[q][0] == todo[0]
  {
  }

  lemma ExecutedGetsABook(y: System, q: nat)
    requires CanPop(y, q)
    ensures y.queues[q][0].Symbol() in RunFrom(y, [Pop(q), ExecuteTask(q)]).books
  {
    PopThenExecute(y, q);
  }

  lemma StrayCancelGoesToZero(names: seq<string>, y: System, m: Message)
    requires names != [] && Shaped(names, y) && Drained(y) && m.CancelMessage? && m.symbol !in names
    ensures OneToDo(RunFrom(RunFrom(y, [Push(m), Flush]), HANDLE), 0, [CancelOf(m)])
  {
    HomeIsFirstMention(names, m.symbol);
    DispatchesOne(names, y, m);
  }

  lemma PhantomDispatched(names: seq<string>, o: FreshOrder) returns (y: System)
    requires names != [] && o.symbol !in names
    ensures var m := CancelMessage(o.owner, o.symbol, o.side, o.clientID);
            y == After(names, [Push(m), Flush] + HANDLE)
    ensures CanPop(y, 0) && y.queues[0][0].Symbol() == o.symbol
  {
    var m := CancelMessage(o.owner, o.symbol, o.side, o.clientID);
    StartIsRouted(names);
    StrayCancelGoesToZero(names, Start(names), m);
    RunAfter(names, [Push(m), Flush], HANDLE);
    RunIsRouted(names, [Push(m), Flush] + HANDLE);
    y := After(names, [Push(m), Flush] + HANDLE);
    FirstCanPop(names, y, 0, [CancelOf(m)]);
  }

  /** After those steps the symbol has a book, so the next new order for it is accepted, not rejected. */
  lemma PhantomSymbol(names: seq<string>, o: FreshOrder)
    requires names != [] && o.symbol !in names
    ensures o.symbol in After(names, PhantomSteps(o)).books
  {
    var m := CancelMessage(o.owner, o.symbol, o.side, o.clientID);
    var y := PhantomDispatched(names, o);
    ExecutedGetsABook(y, 0);
    RunAfter(names, [Push(m), Flush] + HANDLE, [Pop(0), ExecuteTask(0)]);
  }
}
