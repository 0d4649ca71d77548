/** The running engine: one pass of the dispatcher's loop, one turn of a worker's loop, on the central order book
    object.  Each pass is the actors' steps taken back to back, so whatever holds of every interleaving holds here. */
module Engines {
  import opened Matching
  import opened SymbolRuns
  import opened TradingSystem
  import opened SystemSafety
  import opened ClientStreams
  import opened CentralOrderBooks

  function SharedOf(y: System): Shared { Shared(y.books, y.queueOf, y.queues, y.outgoing) }

  // ---------------------------------------------------------------- one message

  function AfterMessage(sh: Shared, m: Message, n: nat): Shared {
    match m
    case NewMessage(o) => Added(sh, Stamp(o, n))
    case CancelMessage(owner, symbol, side, origID) => Submitted(sh, CancelTask(owner, symbol, side, origID))
  }

  function AfterMessages(sh: Shared, ms: seq<Message>, n: nat): Shared
    decreases |ms|
  {
    if ms == [] then sh else AfterMessages(AfterMessage(sh, ms[0], n), ms[1..], n + 1)
  }

  /** A message's steps; a rejected order makes the last one a stutter, a cancel the middle one. */
  const HANDLE: seq<Step> := [Dispatch, Announce, Submit]

  lemma ThreeSteps(y: System, a: Step, b: Step, c: Step)
    ensures RunFrom(y, [a, b, c]) == Apply(Apply(Apply(y, a), b), c)
  {
    RunFromSnoc(y, [a, b], c);
    assert [a, b] + [c] == [a, b, c];
    RunFromSnoc(y, [a], b);
    assert [a] + [b] == [a, b];
    RunFromSnoc(y, [], a);
    assert [] + [a] == [a];
  }

  lemma AnnounceStep(y: System)
    requires y.dispatcher.Announcing?
    ensures Apply(y, Announce) == AnnounceOne(y)
  {
  }

  lemma SubmitStep(y: System)
    ensures Apply(y, Submit)
         == if y.dispatcher.Submitting? then SubmitTo(y.(dispatcher := Ready), y.dispatcher.task) else y
  {
  }

  lemma HandlesNew(names: seq<string>, y: System)
    requires Shaped(names, y) && y.dispatcher.Ready? && y.batch != [] && y.batch[0].NewMessage?
    ensures var o := Stamp(y.batch[0].order, y.dispatched);
            var y' := y.(batch := y.batch[1..], dispatched := y.dispatched + 1);
            RunFrom(y, HANDLE)
              == if o.symbol in y.books
                 then SubmitTo(y'.(outgoing := y.outgoing + [Accepted(o)], accepted := y.accepted + [NewTask(o)]),
                               NewTask(o))
                 else y'.(outgoing := y.outgoing + [Rejected(o)])
  {
    ThreeSteps(y, Dispatch, Announce, Submit);
    var d := DispatchOne(y);
    assert Apply(y, Dispatch) == d && d.dispatcher.Announcing?;
    AnnounceStep(d);
    var a, o := AnnounceOne(d), Stamp(y.batch[0].order, y.dispatched);
    SubmitStep(a);
    var y' := y.(batch := y.batch[1..], dispatched := y.dispatched + 1);
    if o.symbol in y.books {
      assert a.dispatcher == Submitting(NewTask(o));
      assert a.(dispatcher := Ready)
          == y'.(outgoing := y.outgoing + [Accepted(o)], accepted := y.accepted + [NewTask(o)]);
    } else {
      assert a == y'.(outgoing := y.outgoing + [Rejected(o)]);
    }
  }

  lemma HandlesCancel(names: seq<string>, y: System)
    requires Shaped(names, y) && y.dispatcher.Ready? && y.batch != [] && y.batch[0].CancelMessage?
    ensures var m := y.batch[0];
            var t := CancelTask(m.owner, m.symbol, m.side, m.origID);
            RunFrom(y, HANDLE)
              == SubmitTo(y.(batch := y.batch[1..], dispatched := y.dispatched + 1, accepted := y.accepted + [t]), t)
  {
    ThreeSteps(y, Dispatch, Announce, Submit);
    var d := DispatchOne(y);
    assert Apply(y, Dispatch) == d && d.dispatcher.Submitting?;
    assert Apply(d, Announce) == d;
    SubmitStep(d);
  }

  /** Handling the first message of the batch: on the shared state it is the central order book's own operation. */
  lemma Handles(names: seq<string>, y: System)
    requires Shaped(names, y) && y.dispatcher.Ready? && y.batch != []
    ensures var y' := RunFrom(y, HANDLE);
            && SharedOf(y') == AfterMessage(SharedOf(y), y.batch[0], y.dispatched)
            && y'.batch == y.batch[1..] && y'.dispatched == y.dispatched + 1
            && y'.dispatcher.Ready? && y'.workers == y.workers && y'.incoming == y.incoming && y'.pushed == y.pushed
  {
    if y.batch[0].NewMessage? {
      HandlesNew(names, y);
      HomeIsFirstMention(names, y.batch[0].order.symbol);
    } else {
      HandlesCancel(names, y);
      HomeIsFirstMention(names, y.batch[0].symbol);
    }
  }

  lemma ReachableIsShaped(names: seq<string>, y: System)
    requires names != [] && Reachable(names, y)
    ensures Routed(names, y)
  {
    var steps :| y == After(names, steps);
    EveryRunIsSafe(names, steps);
  }

  lemma HandlesNext(names: seq<string>, y: System) returns (next: System)
    requires names != [] && Reachable(names, y) && y.dispatcher.Ready? && y.batch != []
    ensures Reachable(names, next)
    ensures SharedOf(next) == AfterMessage(SharedOf(y), y.batch[0], y.dispatched)
    ensures next.batch == y.batch[1..] && next.dispatched == y.dispatched + 1
    ensures next.dispatcher.Ready? && next.workers == y.workers
    ensures next.incoming == y.incoming && next.pushed == y.pushed
  {
    ReachableIsShaped(names, y);
    Handles(names, y);
    StaysReachable(names, y, HANDLE);
    next := RunFrom(y, HANDLE);
  }

  // ---------------------------------------------------------------- one task

  function SendAll(q: nat, k: nat): seq<Step> {
    if k == 0 then [SendReport(q)] else [SendReport(q)] + SendAll(q, k - 1)
  }

  lemma OneStep(y: System, step: Step)
    ensures RunFrom(y, [step]) == Apply(y, step)
  {
    RunFromSnoc(y, [], step);
    assert [] + [step] == [step];
  }

  function AllSentBy(y: System, q: nat, reports: seq<Report>): System
    requires q < |y.workers|
  {
    y.(outgoing := y.outgoing + reports, workers := y.workers[q := Waiting])
  }

  lemma SentFirst(y: System, q: nat, reports: seq<Report>)
    requires q < |y.workers| && y.workers[q] == Reporting(reports) && reports != []
    ensures Apply(y, SendReport(q)) == SendOn(y, q) && SendOn(y, q).workers[q] == Reporting(reports[1..])
    ensures AllSentBy(SendOn(y, q), q, reports[1..]) == AllSentBy(y, q, reports)
  {
    assert y.outgoing + [reports[0]] + reports[1..] == y.outgoing + reports;
    assert y.workers[q := Reporting(reports[1..])][q := Waiting] == y.workers[q := Waiting];
  }

  lemma SentLast(y: System, q: nat)
    requires q < |y.workers| && y.workers[q] == Reporting([])
    ensures Apply(y, SendReport(q)) == AllSentBy(y, q, [])
  {
    assert y.outgoing + [] == y.outgoing;
  }

  lemma {:induction false} SendsAll(y: System, q: nat, reports: seq<Report>)
    requires q < |y.workers| && y.workers[q] == Reporting(reports)
    ensures RunFrom(y, SendAll(q, |reports|)) == AllSentBy(y, q, reports)
    decreases |reports|
  {
    OneStep(y, SendReport(q));
    if reports == [] {
      SentLast(y, q);
    } else {
      SentFirst(y, q, reports);
      RunFromAppend(y, [SendReport(q)], SendAll(q, |reports| - 1));
      SendsAll(SendOn(y, q), q, reports[1..]);
    }
  }

  ghost predicate Idle(y: System) { forall w :: 0 <= w < |y.workers| ==> y.workers[w].Waiting? }

  /** A worker's turn: it takes a task, carries it out and sends its reports, or submits an unfound cancel again. */
  function TurnOf(y: System, q: nat): seq<Step>
    requires CanPop(y, q)
  {
    var t := y.queues[q][0];
    [Pop(q), ExecuteTask(q)]
      + if Unfound(y.books, t) then [Resubmit(q)] else SendAll(q, |SentReports(Executed(y.books, t).log)|)
  }

  lemma PopStep(y: System, q: nat)
    requires CanPop(y, q)
    ensures Apply(y, Pop(q)) == PopOn(y, q) && PopOn(y, q).workers[q] == Running(y.queues[q][0])
  {
  }

  lemma ExecuteStep(y: System, q: nat)
    requires q < |y.workers| && y.workers[q].Running?
    ensures Apply(y, ExecuteTask(q)) == ExecuteOn(y, q)
  {
  }

  lemma PopThenExecute(y: System, q: nat)
    requires CanPop(y, q)
    ensures RunFrom(y, [Pop(q), ExecuteTask(q)]) == ExecuteOn(PopOn(y, q), q)
  {
    RunFromSnoc(y, [Pop(q)], ExecuteTask(q));
    assert [Pop(q)] + [ExecuteTask(q)] == [Pop(q), ExecuteTask(q)];
    OneStep(y, Pop(q));
    PopStep(y, q);
    ExecuteStep(PopOn(y, q), q);
  }

  lemma ResubmitStep(y: System, q: nat)
    requires q < |y.workers| && y.workers[q].Resubmitting?
    ensures Apply(y, Resubmit(q)) == ResubmitOn(y, q)
  {
  }

  lemma TurnUnfound(y: System, q: nat)
    requires CanPop(y, q) && Unfound(y.books, y.queues[q][0])
    ensures RunFrom(y, TurnOf(y, q)) == ResubmitOn(ExecuteOn(PopOn(y, q), q), q)
  {
    var y2 := ExecuteOn(PopOn(y, q), q);
    PopThenExecute(y, q);
    RunFromSnoc(y, [Pop(q), ExecuteTask(q)], Resubmit(q));
    ResubmitStep(y2, q);
  }

  lemma TurnFound(y: System, q: nat)
    requires CanPop(y, q) && !Unfound(y.books, y.queues[q][0])
    ensures RunFrom(y, TurnOf(y, q))
         == AllSentBy(ExecuteOn(PopOn(y, q), q), q, SentReports(Executed(y.books, y.queues[q][0]).log))
  {
    var reports := SentReports(Executed(y.books, y.queues[q][0]).log);
    PopThenExecute(y, q);
    RunFromAppend(y, [Pop(q), ExecuteTask(q)], SendAll(q, |reports|));
    SendsAll(ExecuteOn(PopOn(y, q), q), q, reports);
  }

  /** What a turn leaves alone. */
  ghost predicate OnlyWorked(y: System, y': System) {
    && y'.batch == y.batch && y'.dispatched == y.dispatched && y'.dispatcher == y.dispatcher
    && y'.incoming == y.incoming && y'.pushed == y.pushed && Idle(y')
  }

  /** The shared state once worker `q` has taken its next task. */
  function Taken(y: System, q: nat): Shared
    requires q < |y.queues| && y.queues[q] != []
  {
    SharedOf(y).(queues := y.queues[q := y.queues[q][1..]])
  }

  lemma UnfoundTurn(names: seq<string>, y: System, q: nat)
    requires Shaped(names, y) && CanPop(y, q) && Idle(y) && Unfound(y.books, y.queues[q][0])
    ensures var y' := ResubmitOn(ExecuteOn(PopOn(y, q), q), q);
            SharedOf(y') == TaskDone(Taken(y, q), y.queues[q][0]) && OnlyWorked(y, y')
  {
    HomeIsFirstMention(names, y.queues[q][0].Symbol());
  }

  lemma FoundTurn(y: System, q: nat)
    requires CanPop(y, q) && Idle(y) && !Unfound(y.books, y.queues[q][0])
    ensures var y' := AllSentBy(ExecuteOn(PopOn(y, q), q), q, SentReports(Executed(y.books, y.queues[q][0]).log));
            SharedOf(y') == TaskDone(Taken(y, q), y.queues[q][0]) && OnlyWorked(y, y')
  {
  }

  /** A worker's whole turn: on the shared state it is the central order book's own task body. */
  lemma Turn(names: seq<string>, y: System, q: nat)
    requires Routed(names, y) && CanPop(y, q) && Idle(y)
    ensures var y' := RunFrom(y, TurnOf(y, q));
            SharedOf(y') == TaskDone(Taken(y, q), y.queues[q][0]) && OnlyWorked(y, y')
  {
    if Unfound(y.books, y.queues[q][0]) {
      TurnUnfound(y, q);
      UnfoundTurn(names, y, q);
    } else {
      TurnFound(y, q);
      FoundTurn(y, q);
    }
  }

  lemma TurnNext(names: seq<string>, y: System, q: nat) returns (next: System)
    requires names != [] && Reachable(names, y) && Idle(y) && q < |y.queues| && y.queues[q] != []
    ensures Reachable(names, next)
    ensures SharedOf(next) == TaskDone(Taken(y, q), y.queues[q][0]) && OnlyWorked(y, next)
  {
    ReachableIsShaped(names, y);
    assert CanPop(y, q);
    Turn(names, y, q);
    StaysReachable(names, y, TurnOf(y, q));
    next := RunFrom(y, TurnOf(y, q));
  }

  // ---------------------------------------------------------------- the loops

  class Engine {
    ghost const names: seq<string>
    const centralOrderBook: CentralOrderBook
    var queue: seq<Message>       // pushed and not yet flushed
    var arrivals: nat             // specification tag: how many messages have been taken up
    ghost var machine: System     // the abstract state this object is in

    /** The workers are between two turns, the dispatcher has `batch` still to handle, and the objects hold what some
        run of the machine leads to. */
    ghost predicate Dispatching(batch: seq<Message>)
      reads this, centralOrderBook, centralOrderBook.threadPool, centralOrderBook.Repr
    {
      && centralOrderBook.Valid()
      && names != [] && Reachable(names, machine) && SharedOf(machine) == centralOrderBook.View()
      && machine.incoming == queue && machine.dispatched == arrivals
      && machine.batch == batch && machine.dispatcher.Ready? && Idle(machine)
    }

    ghost predicate Valid()
      reads this, centralOrderBook, centralOrderBook.threadPool, centralOrderBook.Repr
    {
      Dispatching([])
    }

    /** The machine catches up with the objects. */
    ghost method Follow(next: System, batch: seq<Message>)
      requires centralOrderBook.Valid() && names != []
      requires Reachable(names, next) && SharedOf(next) == centralOrderBook.View()
      requires next.incoming == queue && next.dispatched == arrivals
      requires next.batch == batch && next.dispatcher.Ready? && Idle(next)
      modifies this`machine
      ensures Dispatching(batch) && machine == next
    {
      machine := next;
    }

    constructor (threadNames: seq<string>)
      requires threadNames != []
      ensures Valid() && names == threadNames && queue == [] && machine == Start(threadNames)
      ensures fresh(centralOrderBook) && fresh(centralOrderBook.threadPool) && fresh(centralOrderBook.Repr)
    {
      names := threadNames;
      queue := [];
      arrivals := 0;
      centralOrderBook := new CentralOrderBook(threadNames);
      machine := Start(threadNames);
      new;
      assert machine == After(threadNames, []);
    }

    method PushMessage(message: Message)
      requires Valid()
      modifies this`queue, this`machine
      ensures Valid() && queue == old(queue) + [message]
      ensures machine == Apply(old(machine), Push(message)) && machine.pushed == old(machine.pushed) + [message]
    {
      queue := queue + [message];
      OneStep(machine, Push(message));
      StaysReachable(names, machine, [Push(message)]);
      machine := Apply(machine, Push(message));
    }

    /** The call the dispatcher makes for one message of a flushed list. */
    method Deliver(message: Message)
      requires centralOrderBook.Valid()
      modifies centralOrderBook`queueIDDictionary, centralOrderBook`outgoingMessages, centralOrderBook.threadPool
      ensures centralOrderBook.Valid()
      ensures centralOrderBook.View() == AfterMessage(old(centralOrderBook.View()), message, arrivals)
    {
      match message
      case NewMessage(order) =>
        var accepted, thrown := centralOrderBook.AddOrder(Stamp(order, arrivals));
      case CancelMessage(owner, symbol, side, origID) =>
        var thrown := centralOrderBook.CancelOrder(CancelTask(owner, symbol, side, origID));
    }

    /** One round of the dispatcher's loop over a flushed list. */
    method HandleMessage(message: Message, ghost rest: seq<Message>)
      requires Dispatching([message] + rest)
      modifies this`arrivals, this`machine, centralOrderBook`queueIDDictionary,
               centralOrderBook`outgoingMessages, centralOrderBook.threadPool
      ensures Dispatching(rest) && arrivals == old(arrivals) + 1 && machine.pushed == old(machine.pushed)
      ensures centralOrderBook.View() == AfterMessage(old(centralOrderBook.View()), message, old(arrivals))
    {
      ghost var next := HandlesNext(names, machine);
      Deliver(message);
      arrivals := arrivals + 1;
      Follow(next, rest);
    }

    /** One pass of the dispatcher: the flushed list is handled in order. */
    method DispatcherPass()
      requires Valid()
      modifies this`queue, this`arrivals, this`machine, centralOrderBook`queueIDDictionary,
               centralOrderBook`outgoingMessages, centralOrderBook.threadPool
      ensures Valid() && queue == [] && machine.pushed == old(machine.pushed)
      ensures centralOrderBook.View() == AfterMessages(old(centralOrderBook.View()), old(queue), old(arrivals))
    {
      var messageLinkedList := queue;
      queue := [];
      OneStep(machine, Flush);
      StaysReachable(names, machine, [Flush]);
      machine := Apply(machine, Flush);
      while messageLinkedList != []
        invariant Dispatching(messageLinkedList) && queue == [] && machine.pushed == old(machine.pushed)
        invariant AfterMessages(old(centralOrderBook.View()), old(queue), old(arrivals))
               == AfterMessages(centralOrderBook.View(), messageLinkedList, arrivals)
      {
        assert messageLinkedList == [messageLinkedList[0]] + messageLinkedList[1..];
        HandleMessage(messageLinkedList[0], messageLinkedList[1..]);
        messageLinkedList := messageLinkedList[1..];
      }
    }

    /** Worker `q` has taken `task` and is about to run it. */
    ghost predicate Holding(q: nat, task: Task)
      reads this, centralOrderBook, centralOrderBook.threadPool, centralOrderBook.Repr
    {
      && centralOrderBook.Valid()
      && names != [] && Reachable(names, machine)
      && q < |machine.queues| && machine.queues[q] != [] && machine.queues[q][0] == task
      && Taken(machine, q) == centralOrderBook.View()
      && machine.incoming == queue && machine.dispatched == arrivals
      && machine.batch == [] && machine.dispatcher.Ready? && Idle(machine)
    }

    method RunTask(ghost q: nat, task: Task)
      requires Holding(q, task)
      modifies this`machine, centralOrderBook, centralOrderBook.threadPool, centralOrderBook.Repr
      ensures Valid() && fresh(centralOrderBook.Repr - old(centralOrderBook.Repr))
      ensures machine.pushed == old(machine.pushed)
      ensures centralOrderBook.View() == TaskDone(old(centralOrderBook.View()), task)
    {
      ghost var next := TurnNext(names, machine, q);
      var thrown := centralOrderBook.ExecuteTask(task);
      Follow(next, []);
    }

    /** One turn of worker `q`'s loop; `worked` says whether it had a task. */
    method WorkerTurn(q: nat) returns (worked: bool)
      requires Valid() && q < |centralOrderBook.threadPool.threadQueues|
      modifies this`machine, centralOrderBook, centralOrderBook.threadPool, centralOrderBook.Repr
      ensures Valid() && fresh(centralOrderBook.Repr - old(centralOrderBook.Repr))
      ensures machine.pushed == old(machine.pushed)
      ensures var before := old(centralOrderBook.View()); var tasks := before.queues[q];
              && (worked <==> tasks != [])
              && centralOrderBook.View()
                 == if worked then TaskDone(before.(queues := before.queues[q := tasks[1..]]), tasks[0]) else before
    {
      var task := centralOrderBook.threadPool.TryPop(q);
      if task.None? {
        return false;
      }
      RunTask(q, task.value);
      worked := true;
    }
  }

  /** Whatever calls were made, every order's reports among the outgoing messages form a legal stream. */
  lemma EngineStreamsAreOk(engine: Engine, n: nat)
    requires engine.Valid()
    ensures ClientStreamOk(StreamOf(engine.centralOrderBook.outgoingMessages, n))
  {
    var steps :| engine.machine == After(engine.names, steps);
    EveryOrdersStreamIsOk(engine.names, steps, n);
  }
}
