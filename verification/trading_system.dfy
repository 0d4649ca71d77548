/** The multithreaded engine as interleaved actors: FIX sessions push messages, the dispatcher drains detached
    batches into the central order book, and one worker per thread name executes the tasks of its own queue.
    Every access to shared state is one step.  Task queues are atomic FIFOs. */
module TradingSystem {
  import opened Options
  import opened Orders
  import opened Books
  import opened Matching
  import opened SymbolRuns

  datatype Message =
    | NewMessage(order: FreshOrder)
    | CancelMessage(owner: string, symbol: string, side: Side, origID: string)

  // ---------------------------------------------------------------- routing

  /** Thread names are symbol names; a repeated name keeps its first queue. */
  function InitialQueues(names: seq<string>): map<string, nat> {
    if names == [] then map[]
    else
      var m, last := InitialQueues(names[..|names| - 1]), |names| - 1;
      if names[last] in m then m else m[names[last] := last]
  }

  /** Indexing the queue dictionary inserts queue 0 for a symbol it does not know. */
  function Route(queueOf: map<string, nat>, symbol: string): nat {
    if symbol in queueOf then queueOf[symbol] else 0
  }

  function LookedUp(queueOf: map<string, nat>, symbol: string): map<string, nat> {
    queueOf[symbol := Route(queueOf, symbol)]
  }

  /** The queue every task of `symbol` goes to. */
  function Home(names: seq<string>, symbol: string): nat { Route(InitialQueues(names), symbol) }

  // ---------------------------------------------------------------- state

  /** `Announcing` and `Submitting` are the dispatcher inside addOrder; what to report and to submit is decided. */
  datatype Dispatcher = Ready | Announcing(report: Report, next: Option<Task>) | Submitting(task: Task)

  datatype Worker = Waiting | Running(task: Task) | Reporting(unsent: seq<Report>) | Resubmitting(task: Task)

  datatype System = System(
    books: map<string, Book>,
    queueOf: map<string, nat>,
    queues: seq<seq<Task>>,
    workers: seq<Worker>,
    dispatcher: Dispatcher,
    batch: seq<Message>,
    incoming: seq<Message>,
    outgoing: seq<Report>,
    submitFailed: bool,        // submitTask threw: the queue index was out of range
    // history
    pushed: seq<Message>,      // every message any session pushed
    dispatched: nat,           // how many of them the dispatcher has taken up
    accepted: seq<Task>,       // tasks it decided to submit
    executed: seq<Task>,       // tasks workers have executed
    popped: seq<seq<Task>>)    // tasks taken from each queue

  function BookOf(books: map<string, Book>, symbol: string): Book {
    if symbol in books then books[symbol] else EMPTY_BOOK
  }

  function InitialBooks(names: seq<string>): map<string, Book> {
    map s | s in names :: EMPTY_BOOK
  }

  function Start(names: seq<string>): System {
    System(InitialBooks(names), InitialQueues(names), seq(|names|, _ => []), seq(|names|, _ => Waiting), Ready,
           [], [], [],
           false, [], 0, [], [], seq(|names|, _ => []))
  }

  // ---------------------------------------------------------------- steps

  datatype Step =
    | Push(message: Message) | Flush | Dispatch | Announce | Submit
    | Pop(q: nat) | ExecuteTask(q: nat) | SendReport(q: nat) | Resubmit(q: nat)

  function Stamp(o: FreshOrder, n: nat): FreshOrder { o.(arrival := n) }

  function Accepted(o: Order): Report { Report(o, ACCEPTED, "") }

  function Rejected(o: Order): Report { Report(o, REJECTED, "Symbol not supported") }

  function SubmitTo(y: System, t: Task): System {
    var q := Route(y.queueOf, t.Symbol());
    var y' := y.(queueOf := LookedUp(y.queueOf, t.Symbol()));
    if q < |y.queues| then y'.(queues := y.queues[q := y.queues[q] + [t]]) else y'.(submitFailed := true)
  }

  function DispatchOne(y: System): System
    requires y.batch != []
  {
    var y' := y.(batch := y.batch[1..], dispatched := y.dispatched + 1);
    match y.batch[0]
    case NewMessage(order) =>
      var o := Stamp(order, y.dispatched);
      if o.symbol in y.books
      then y'.(dispatcher := Announcing(Accepted(o), Some(NewTask(o))), accepted := y.accepted + [NewTask(o)])
      else y'.(dispatcher := Announcing(Rejected(o), None))
    case CancelMessage(owner, symbol, side, origID) =>
      var t := CancelTask(owner, symbol, side, origID);
      y'.(dispatcher := Submitting(t), accepted := y.accepted + [t])
  }

  function SentReports(log: seq<Event>): seq<Report> {
    if log == [] then []
    else if log[|log| - 1].Sent? then SentReports(log[..|log| - 1]) + [log[|log| - 1].report]
    else SentReports(log[..|log| - 1])
  }

  /** One task body on its symbol's live book. */
  function Executed(books: map<string, Book>, t: Task): SymbolState {
    Exec(SymbolState(BookOf(books, t.Symbol()), []), t)
  }

  function BooksAfter(books: map<string, Book>, t: Task): map<string, Book> {
    books[t.Symbol() := Executed(books, t).book]
  }

  predicate Unfound(books: map<string, Book>, t: Task) {
    t.CancelTask? && !CancelFinds(BookOf(books, t.Symbol()), t)
  }

  /** The worker's task body; taskCancelOrder submits an unfound cancel again. */
  function WorkerAfter(books: map<string, Book>, t: Task): Worker {
    if Unfound(books, t) then Resubmitting(t) else Reporting(SentReports(Executed(books, t).log))
  }

  function ExecuteOn(y: System, q: nat): System
    requires q < |y.workers| && y.workers[q].Running?
  {
    var t := y.workers[q].task;
    y.(books := BooksAfter(y.books, t),
       workers := y.workers[q := WorkerAfter(y.books, t)],
       executed := y.executed + [t])
  }

  function AnnounceOne(y: System): System
    requires y.dispatcher.Announcing?
  {
    y.(outgoing := y.outgoing + [y.dispatcher.report],
       dispatcher := if y.dispatcher.next.Some? then Submitting(y.dispatcher.next.value) else Ready)
  }

  predicate CanPop(y: System, q: nat) {
    q < |y.workers| && q < |y.queues| && q < |y.popped| && y.workers[q].Waiting? && y.queues[q] != []
  }

  function PopOn(y: System, q: nat): System
    requires CanPop(y, q)
  {
    y.(workers := y.workers[q := Running(y.queues[q][0])],
       queues := y.queues[q := y.queues[q][1..]],
       popped := y.popped[q := y.popped[q] + [y.queues[q][0]]])
  }

  function SendOn(y: System, q: nat): System
    requires q < |y.workers| && y.workers[q].Reporting?
  {
    var unsent := y.workers[q].unsent;
    if unsent == [] then y.(workers := y.workers[q := Waiting])
    else y.(outgoing := y.outgoing + [unsent[0]], workers := y.workers[q := Reporting(unsent[1..])])
  }

  function ResubmitOn(y: System, q: nat): System
    requires q < |y.workers| && y.workers[q].Resubmitting?
  {
    SubmitTo(y.(workers := y.workers[q := Waiting]), y.workers[q].task)
  }

  predicate Enabled(y: System, step: Step) {
    match step
    case Push(_) => true
    case Flush => y.batch == [] && y.dispatcher.Ready?
    case Dispatch => y.batch != [] && y.dispatcher.Ready?
    case Announce => y.dispatcher.Announcing?
    case Submit => y.dispatcher.Submitting?
    case Pop(q) => CanPop(y, q)
    case ExecuteTask(q) => q < |y.workers| && y.workers[q].Running?
    case SendReport(q) => q < |y.workers| && y.workers[q].Reporting?
    case Resubmit(q) => q < |y.workers| && y.workers[q].Resubmitting?
  }

  function Perform(y: System, step: Step): System
    requires Enabled(y, step)
  {
    match step
    case Push(m) => y.(incoming := y.incoming + [m], pushed := y.pushed + [m])
    case Flush => y.(batch := y.incoming, incoming := [])
    case Dispatch => DispatchOne(y)
    case Announce => AnnounceOne(y)
    case Submit => SubmitTo(y.(dispatcher := Ready), y.dispatcher.task)
    case Pop(q) => PopOn(y, q)
    case ExecuteTask(q) => ExecuteOn(y, q)
    case SendReport(q) => SendOn(y, q)
    case Resubmit(q) => ResubmitOn(y, q)
  }

  /** A step that is not enabled leaves the state alone, so any sequence of steps is a run. */
  function Apply(y: System, step: Step): System {
    if Enabled(y, step) then Perform(y, step) else y
  }

  function RunFrom(y: System, steps: seq<Step>): System {
    if steps == [] then y else Apply(RunFrom(y, steps[..|steps| - 1]), steps[|steps| - 1])
  }

  /** The state after any interleaving of the actors, from start-up. */
  function After(names: seq<string>, steps: seq<Step>): System { RunFrom(Start(names), steps) }

  lemma RunFromSnoc(y: System, steps: seq<Step>, step: Step)
    ensures RunFrom(y, steps + [step]) == Apply(RunFrom(y, steps), step)
  {
    assert (steps + [step])[..|steps|] == steps;
  }

  ghost predicate Reachable(names: seq<string>, y: System) {
    exists steps: seq<Step> :: y == After(names, steps)
  }

  lemma {:induction false} RunFromAppend(y: System, a: seq<Step>, b: seq<Step>)
    ensures RunFrom(y, a + b) == RunFrom(RunFrom(y, a), b)
  {
    if b == [] {
      assert a + b == a;
    } else {
      assert (a + b)[..|a + b| - 1] == a + b[..|b| - 1];
      RunFromAppend(y, a, b[..|b| - 1]);
    }
  }

  lemma StaysReachable(names: seq<string>, y: System, steps: seq<Step>)
    requires Reachable(names, y)
    ensures Reachable(names, RunFrom(y, steps))
  {
    var before :| y == After(names, before);
    RunFromAppend(Start(names), before, steps);
    assert RunFrom(y, steps) == After(names, before + steps);
  }
}
