/** Where everything in the running system comes from: every order and every cancel, in a queue, in a worker's hands, in
    a book or in a report, is field by field what some client's message said. */
module Provenance {
  import opened Filters
  import opened Orders
  import opened Books
  import opened Matching
  import opened SymbolRuns
  import opened OrderLives
  import opened TradingSystem
  import opened SystemSafety
  import opened OrderFlow

  // ---------------------------------------------------------------- what the messages say

  predicate Cancelling(m: Message, owner: string, symbol: string, side: Side, clientID: string) {
    m.CancelMessage? && m.owner == owner && m.symbol == symbol && m.side == side && m.origID == clientID
  }

  ghost predicate CancelAmong(ms: seq<Message>, owner: string, symbol: string, side: Side, clientID: string) {
    exists k :: 0 <= k < |ms| && Cancelling(ms[k], owner, symbol, side, clientID)
  }

  predicate NewAt(ms: seq<Message>, n: nat) { n < |ms| && ms[n].NewMessage? }

  /** The fields a client sets, which nothing ever changes. */
  predicate SameTerms(a: Order, b: Order) {
    && a.clientID == b.clientID && a.symbol == b.symbol && a.owner == b.owner && a.target == b.target
    && a.side == b.side && a.price == b.price && a.quantity == b.quantity
  }

  /** `o` is the order of message number `o.arrival`, perhaps executed in part. */
  predicate OrderFrom(ms: seq<Message>, o: Order) {
    NewAt(ms, o.arrival) && SameTerms(o, ms[o.arrival].order)
  }

  /** The very order of message number `o.arrival`. */
  predicate SameOrderFrom(ms: seq<Message>, o: Order) {
    NewAt(ms, o.arrival) && SameButArrival(o, ms[o.arrival].order)
  }

  ghost predicate TaskComesFrom(ms: seq<Message>, t: Task) {
    match t
    case NewTask(o) => SameOrderFrom(ms, o)
    case CancelTask(owner, symbol, side, origID) => CancelAmong(ms, owner, symbol, side, origID)
  }

  /** A report is about the order of the message it is numbered with, on the client's terms; ACCEPTED and REJECTED
      repeat that order untouched, and CANCELED has a cancel message that asked for it. */
  ghost predicate Truthful(ms: seq<Message>, r: Report) {
    && OrderFrom(ms, r.order)
    && match r.kind
       case ACCEPTED => SameOrderFrom(ms, r.order) && r.text == ""
       case REJECTED => SameOrderFrom(ms, r.order) && r.text == "Symbol not supported"
       case CANCELED =>
         CancelAmong(ms, r.order.owner, r.order.symbol, r.order.side, r.order.clientID) && r.text == "Order canceled"
       case _ => r.text == ""
  }

  lemma CancelStays(ms: seq<Message>, more: seq<Message>, owner: string, symbol: string, side: Side, clientID: string)
    requires ms <= more && CancelAmong(ms, owner, symbol, side, clientID)
    ensures CancelAmong(more, owner, symbol, side, clientID)
  {
    var k :| 0 <= k < |ms| && Cancelling(ms[k], owner, symbol, side, clientID);
    assert more[k] == ms[k];
  }

  lemma StaysFrom(ms: seq<Message>, more: seq<Message>)
    requires ms <= more
    ensures forall o :: OrderFrom(ms, o) ==> OrderFrom(more, o)
    ensures forall t :: TaskComesFrom(ms, t) ==> TaskComesFrom(more, t)
    ensures forall r :: Truthful(ms, r) ==> Truthful(more, r)
  {
    forall t | TaskComesFrom(ms, t) ensures TaskComesFrom(more, t) {
      if t.CancelTask? {
        CancelStays(ms, more, t.owner, t.symbol, t.side, t.origID);
      }
    }
    forall r | Truthful(ms, r) ensures Truthful(more, r) {
      if r.kind == CANCELED {
        CancelStays(ms, more, r.order.owner, r.order.symbol, r.order.side, r.order.clientID);
      }
    }
  }

  // ---------------------------------------------------------------- one task on its book

  ghost predicate BookFrom(ms: seq<Message>, s: string, b: Book) {
    forall side, o :: o in b.On(side) ==> OrderFrom(ms, o) && o.symbol == s
  }

  ghost predicate StateFrom(ms: seq<Message>, s: string, st: SymbolState) {
    BookFrom(ms, s, st.book) && forall e :: e in st.log && e.Sent? ==> Truthful(ms, e.report)
  }

  /** One report on a resting order; a cancellation needs a client that asked for it. */
  lemma AdvanceFrom(ms: seq<Message>, s: string, st: SymbolState, side: Side, i: nat, e: Event)
    requires StateFrom(ms, s, st) && i < |st.book.On(side)| && NextReport(st.book.On(side)[i], e)
    requires e.report.kind == CANCELED ==>
               var o := st.book.On(side)[i]; CancelAmong(ms, o.owner, s, o.side, o.clientID)
    ensures StateFrom(ms, s, Advance(st, side, i, e))
  {
    var r, o := Advance(st, side, i, e), st.book.On(side)[i];
    assert o in st.book.On(side);
    ReportKeepsTerms(o, e);
    assert Truthful(ms, e.report);
    forall other, x | x in r.book.On(other) ensures OrderFrom(ms, x) && x.symbol == s {
      assert x in st.book.On(other) || x == e.report.order;
    }
  }

  lemma ReportKeepsTerms(o: Order, e: Event)
    requires NextReport(o, e)
    ensures SameTerms(e.report.order, o) && e.report.order.arrival == o.arrival
    ensures e.report.kind == CANCELED ==> e.report.text == "Order canceled"
    ensures e.report.kind != CANCELED ==> e.report.text == "" && e.report.IsFill()
  {
  }

  lemma {:induction false} MatchFrom(ms: seq<Message>, s: string, st: SymbolState)
    requires StateFrom(ms, s, st)
    ensures StateFrom(ms, s, MatchAll(st))
    decreases |st.book.bids| + |st.book.asks|
  {
    if Crossed(st.book) {
      var bid, ask := Sent(FillReport(BidAfter(st.book))), Sent(FillReport(AskAfter(st.book)));
      TradeIsTwoAdvances(st);
      AdvanceFrom(ms, s, st, BUY, 0, bid);
      AdvanceFrom(ms, s, Advance(st, BUY, 0, bid), SELL, 0, ask);
      MatchFrom(ms, s, Trade(st));
    }
  }

  lemma EnterFrom(ms: seq<Message>, st: SymbolState, o: FreshOrder)
    requires StateFrom(ms, o.symbol, st) && SameOrderFrom(ms, o)
    ensures StateFrom(ms, o.symbol, Enter(st, o))
  {
    var r := Enter(st, o);
    forall side, x | x in r.book.On(side) ensures OrderFrom(ms, x) && x.symbol == o.symbol {
      InsertOnMembers(st.book.On(o.side), o, x);
    }
  }

  lemma CancelFrom(ms: seq<Message>, st: SymbolState, t: Task)
    requires StateFrom(ms, t.Symbol(), st) && TaskComesFrom(ms, t) && t.CancelTask?
    ensures StateFrom(ms, t.Symbol(), RunCancel(st, t))
  {
    if CancelFinds(st.book, t) {
      var i := FindOn(st.book.On(t.side), t.owner, t.origID).value;
      CancelIsAdvance(st, t);
      AdvanceFrom(ms, t.symbol, st, t.side, i, Sent(CancelReport(st.book.On(t.side)[i].Cancel())));
    }
  }

  lemma ExecFrom(ms: seq<Message>, st: SymbolState, t: Task)
    requires StateFrom(ms, t.Symbol(), st) && TaskComesFrom(ms, t)
    ensures StateFrom(ms, t.Symbol(), Exec(st, t))
  {
    if t.NewTask? {
      EnterFrom(ms, st, t.order);
      MatchFrom(ms, t.order.symbol, Enter(st, t.order));
    } else {
      CancelFrom(ms, st, t);
    }
  }

  // ---------------------------------------------------------------- the whole system

  ghost predicate WorkerComesFrom(ms: seq<Message>, w: Worker) {
    match w
    case Waiting => true
    case Running(t) => TaskComesFrom(ms, t)
    case Reporting(unsent) => forall r :: r in unsent ==> Truthful(ms, r)
    case Resubmitting(t) => TaskComesFrom(ms, t)
  }

  ghost predicate DispatcherComesFrom(ms: seq<Message>, d: Dispatcher) {
    match d
    case Ready => true
    case Announcing(r, next) => Truthful(ms, r) && (next.Some? ==> TaskComesFrom(ms, next.value))
    case Submitting(t) => TaskComesFrom(ms, t)
  }

  ghost predicate AllBooksFrom(ms: seq<Message>, books: map<string, Book>) {
    forall s :: s in books ==> BookFrom(ms, s, books[s])
  }

  ghost predicate AllTasksFrom(ms: seq<Message>, ts: seq<Task>) { forall t :: t in ts ==> TaskComesFrom(ms, t) }

  ghost predicate AllReportsFrom(ms: seq<Message>, rs: seq<Report>) { forall r :: r in rs ==> Truthful(ms, r) }

  ghost predicate ComesFrom(ms: seq<Message>, y: System) {
    && AllTasksFrom(ms, y.accepted) && AllReportsFrom(ms, y.outgoing) && AllBooksFrom(ms, y.books)
    && DispatcherComesFrom(ms, y.dispatcher)
    && (forall q :: 0 <= q < |y.queues| ==> AllTasksFrom(ms, y.queues[q]))
    && (forall q :: 0 <= q < |y.workers| ==> WorkerComesFrom(ms, y.workers[q]))
  }

  lemma ComesFromMore(ms: seq<Message>, more: seq<Message>, y: System)
    requires ComesFrom(ms, y) && ms <= more
    ensures ComesFrom(more, y)
  {
    StaysFrom(ms, more);
  }

  lemma SubmitComesFrom(ms: seq<Message>, y: System, t: Task)
    requires ComesFrom(ms, y) && TaskComesFrom(ms, t)
    ensures ComesFrom(ms, SubmitTo(y, t))
  {
    var q := Route(y.queueOf, t.Symbol());
    if q < |y.queues| {
      assert AllTasksFrom(ms, y.queues[q]);
      assert AllTasksFrom(ms, y.queues[q] + [t]);
    }
  }

  lemma DispatchComesFrom(ms: seq<Message>, y: System)
    requires ComesFrom(ms, y) && |ms| == y.dispatched && Enabled(y, Dispatch)
    ensures ComesFrom(ms + [y.batch[0]], DispatchOne(y))
  {
    var m := y.batch[0];
    var more, y' := ms + [m], DispatchOne(y);
    ComesFromMore(ms, more, y);
    assert more[y.dispatched] == m;
    if m.CancelMessage? {
      assert Cancelling(more[y.dispatched], m.owner, m.symbol, m.side, m.origID);
    }
    forall t | t in y'.accepted ensures TaskComesFrom(more, t) {
      if t !in y.accepted {
        assert t == y'.accepted[|y.accepted|];
      }
    }
  }

  lemma ExecuteComesFrom(ms: seq<Message>, y: System, q: nat)
    requires ComesFrom(ms, y) && q < |y.workers| && y.workers[q].Running?
    ensures ComesFrom(ms, ExecuteOn(y, q))
  {
    var t := y.workers[q].task;
    var r := Executed(y.books, t);
    assert WorkerComesFrom(ms, y.workers[q]);
    ExecFrom(ms, SymbolState(BookOf(y.books, t.Symbol()), []), t);
    SentReportsMembers(r.log);
    assert WorkerComesFrom(ms, WorkerAfter(y.books, t));
  }

  lemma PopComesFrom(ms: seq<Message>, y: System, q: nat)
    requires ComesFrom(ms, y) && CanPop(y, q)
    ensures ComesFrom(ms, PopOn(y, q))
  {
    assert AllTasksFrom(ms, y.queues[q]);
    assert forall t :: t in y.queues[q][1..] ==> t in y.queues[q];
    assert y.queues[q][0] in y.queues[q];
  }

  lemma SendComesFrom(ms: seq<Message>, y: System, q: nat)
    requires ComesFrom(ms, y) && q < |y.workers| && y.workers[q].Reporting?
    ensures ComesFrom(ms, SendOn(y, q))
  {
    assert WorkerComesFrom(ms, y.workers[q]);
    if y.workers[q].unsent != [] {
      assert y.workers[q].unsent[0] in y.workers[q].unsent;
      assert forall r :: r in y.workers[q].unsent[1..] ==> r in y.workers[q].unsent;
    }
  }

  lemma StepComesFrom(ms: seq<Message>, y: System, step: Step)
    requires ComesFrom(ms, y) && Enabled(y, step) && !step.Dispatch?
    ensures ComesFrom(ms, Perform(y, step))
  {
    match step {
      case Submit => SubmitComesFrom(ms, y.(dispatcher := Ready), y.dispatcher.task);
      case Pop(q) => PopComesFrom(ms, y, q);
      case ExecuteTask(q) => ExecuteComesFrom(ms, y, q);
      case SendReport(q) => SendComesFrom(ms, y, q);
      case Resubmit(q) =>
        assert WorkerComesFrom(ms, y.workers[q]);
        SubmitComesFrom(ms, y.(workers := y.workers[q := Waiting]), y.workers[q].task);
      case _ =>
    }
  }

  lemma DispatchTakesUp(y: System)
    requires MessagesKept(y) && Enabled(y, Dispatch)
    ensures y.dispatched < |y.pushed|
    ensures DispatchOne(y).pushed == y.pushed && DispatchOne(y).dispatched == y.dispatched + 1
    ensures y.pushed[..y.dispatched + 1] == TakenUp(y) + [y.batch[0]]
  {
    assert y.pushed[y.dispatched..][0] == y.batch[0];
  }

  lemma OthersTakeUpNothing(y: System, step: Step)
    requires Enabled(y, step) && !step.Dispatch?
    ensures Perform(y, step).dispatched == y.dispatched && y.pushed <= Perform(y, step).pushed
  {
  }

  lemma TakesUp(y: System, step: Step)
    requires MessagesKept(y)
    ensures MessagesKept(Apply(y, step))
    ensures TakenUp(Apply(y, step))
         == if Enabled(y, step) && step.Dispatch? then TakenUp(y) + [y.batch[0]] else TakenUp(y)
  {
    StepKeepsMessages(y, step);
    if Enabled(y, step) {
      if step.Dispatch? {
        DispatchTakesUp(y);
      } else {
        OthersTakeUpNothing(y, step);
      }
    }
  }

  lemma {:induction false} EverythingComesFromClients(names: seq<string>, steps: seq<Step>)
    ensures var y := After(names, steps); MessagesKept(y) && ComesFrom(TakenUp(y), y)
  {
    if steps != [] {
      var y, step := After(names, steps[..|steps| - 1]), steps[|steps| - 1];
      EverythingComesFromClients(names, steps[..|steps| - 1]);
      TakesUp(y, step);
      if Enabled(y, step) {
        if step.Dispatch? {
          DispatchComesFrom(TakenUp(y), y);
        } else {
          StepComesFrom(TakenUp(y), y, step);
        }
      }
    }
  }

  // ---------------------------------------------------------------- the theorems, field by field

  /** Under every interleaving an accepted task is its client's own order, untouched but for the number it got, or a
      cancel that a client sent. */
  lemma EveryTaskIsTheClients(names: seq<string>, steps: seq<Step>, t: Task)
    requires t in After(names, steps).accepted
    ensures var y := After(names, steps);
            match t
            case NewTask(o) =>
              && o.arrival < y.dispatched <= |y.pushed| && y.pushed[o.arrival].NewMessage?
              && SameButArrival(o, y.pushed[o.arrival].order)
            case CancelTask(owner, symbol, side, origID) =>
              y.dispatched <= |y.pushed|
              && exists k :: 0 <= k < y.dispatched && Cancelling(y.pushed[k], owner, symbol, side, origID)
  {
    EverythingComesFromClients(names, steps);
    var y := After(names, steps);
    assert TaskComesFrom(TakenUp(y), t);
    if t.CancelTask? {
      CancelStays(TakenUp(y), TakenUp(y), t.owner, t.symbol, t.side, t.origID);
      var k :| 0 <= k < y.dispatched && Cancelling(TakenUp(y)[k], t.owner, t.symbol, t.side, t.origID);
      assert y.pushed[k] == TakenUp(y)[k];
    }
  }

  /** Under every interleaving every outgoing report is truthful about the messages taken up. */
  lemma EveryReportIsTruthful(names: seq<string>, steps: seq<Step>, r: Report)
    requires r in After(names, steps).outgoing
    ensures var y := After(names, steps); y.dispatched <= |y.pushed| && Truthful(y.pushed[..y.dispatched], r)
  {
    EverythingComesFromClients(names, steps);
  }

  /** Under every interleaving every resting order is on its own symbol's book, on the terms its client set. */
  lemma EveryRestingOrderIsTheClients(names: seq<string>, steps: seq<Step>, s: string, side: Side, o: Order)
    requires var y := After(names, steps); s in y.books && o in y.books[s].On(side)
    ensures var y := After(names, steps);
            && o.symbol == s && o.side == side
            && o.arrival < y.dispatched <= |y.pushed| && y.pushed[o.arrival].NewMessage?
            && SameTerms(o, y.pushed[o.arrival].order)
  {
    var y := After(names, steps);
    EverythingComesFromClients(names, steps);
    assert BookFrom(TakenUp(y), s, y.books[s]);
    var i :| 0 <= i < |y.books[s].On(side)| && y.books[s].On(side)[i] == o;
  }

  // ---------------------------------------------------------------- cancels are passed on

  function IsCancelTask(): Task -> bool { (t: Task) => t.CancelTask? }

  function IsCancelMessage(): Message -> bool { (m: Message) => m.CancelMessage? }

  /** Task by task the cancels that the messages ask for. */
  predicate SameCancels(ts: seq<Task>, ms: seq<Message>) {
    && |ts| == |ms|
    && forall i :: 0 <= i < |ts| ==>
         ts[i].CancelTask? && Cancelling(ms[i], ts[i].owner, ts[i].symbol, ts[i].side, ts[i].origID)
  }

  lemma CancelPassesOn(ts: seq<Task>, ms: seq<Message>, t: Task, m: Message)
    requires t.CancelTask? && Cancelling(m, t.owner, t.symbol, t.side, t.origID)
    requires SameCancels(Filter(ts, IsCancelTask()), Filter(ms, IsCancelMessage()))
    ensures SameCancels(Filter(ts + [t], IsCancelTask()), Filter(ms + [m], IsCancelMessage()))
  {
    FilterSnoc(ts, t, IsCancelTask());
    FilterSnoc(ms, m, IsCancelMessage());
  }

  /** The task, if any, that comes of the first message of the batch. */
  lemma DispatchAccepts(y: System)
    requires Enabled(y, Dispatch)
    ensures var m := y.batch[0]; var ts := DispatchOne(y).accepted;
            if m.NewMessage? then ts == y.accepted || ts == y.accepted + [NewTask(Stamp(m.order, y.dispatched))]
            else |ts| == |y.accepted| + 1 && ts[..|y.accepted|] == y.accepted
                 && var t := ts[|y.accepted|]; t.CancelTask? && Cancelling(m, t.owner, t.symbol, t.side, t.origID)
  {
  }

  lemma DispatchPassesOn(y: System, ms: seq<Message>)
    requires Enabled(y, Dispatch)
    requires SameCancels(Filter(y.accepted, IsCancelTask()), Filter(ms, IsCancelMessage()))
    ensures SameCancels(Filter(DispatchOne(y).accepted, IsCancelTask()), Filter(ms + [y.batch[0]], IsCancelMessage()))
  {
    var m, ts := y.batch[0], DispatchOne(y).accepted;
    DispatchAccepts(y);
    if m.NewMessage? {
      FilterSnoc(ms, m, IsCancelMessage());
      FilterSnoc(y.accepted, NewTask(Stamp(m.order, y.dispatched)), IsCancelTask());
    } else {
      assert ts == y.accepted + [ts[|y.accepted|]];
      CancelPassesOn(y.accepted, ms, ts[|y.accepted|], m);
    }
  }

  ghost predicate PassedOn(y: System)
    requires y.dispatched <= |y.pushed|
  {
    SameCancels(Filter(y.accepted, IsCancelTask()), Filter(y.pushed[..y.dispatched], IsCancelMessage()))
  }

  lemma StepPassesOn(y: System, step: Step)
    requires MessagesKept(y) && PassedOn(y)
    ensures MessagesKept(Apply(y, step)) && PassedOn(Apply(y, step))
  {
    TakesUp(y, step);
    if Enabled(y, step) && step.Dispatch? {
      DispatchPassesOn(y, TakenUp(y));
    } else {
      assert Apply(y, step).accepted == y.accepted;
    }
  }

  /** Under every interleaving the cancels accepted are, one by one and in order, the cancel messages taken up. */
  lemma {:induction false} EveryCancelIsPassedOn(names: seq<string>, steps: seq<Step>)
    ensures var y := After(names, steps);
            y.dispatched <= |y.pushed|
            && SameCancels(Filter(y.accepted, IsCancelTask()), Filter(y.pushed[..y.dispatched], IsCancelMessage()))
  {
    if steps != [] {
      var y, step := After(names, steps[..|steps| - 1]), steps[|steps| - 1];
      EveryCancelIsPassedOn(names, steps[..|steps| - 1]);
      EverythingComesFromClients(names, steps[..|steps| - 1]);
      StepPassesOn(y, step);
    }
  }
}
