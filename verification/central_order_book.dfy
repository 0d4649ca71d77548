/** The central order book as an object: the books by symbol, the queue of each symbol, the thread pool and the
    outgoing reports.  Every method is proved against the value-level step functions. */
module CentralOrderBooks {
  import opened Options
  import opened Orders
  import opened Books
  import opened Matching
  import opened SymbolRuns
  import opened TradingSystem
  import opened ReportStreams
  import opened OrderBooks
  import opened ThreadPools

  /** What the dispatcher and the workers share. */
  datatype Shared = Shared(
    books: map<string, Book>, queueOf: map<string, nat>, queues: seq<seq<Task>>, outgoing: seq<Report>)

  predicate Throws(sh: Shared, t: Task) { Route(sh.queueOf, t.Symbol()) >= |sh.queues| }

  /** `t` at the back of its symbol's queue; an unknown symbol is entered with queue 0. */
  function Submitted(sh: Shared, t: Task): Shared {
    var q := Route(sh.queueOf, t.Symbol());
    sh.(queueOf := LookedUp(sh.queueOf, t.Symbol()),
        queues := if q < |sh.queues| then sh.queues[q := sh.queues[q] + [t]] else sh.queues)
  }

  function Added(sh: Shared, o: FreshOrder): Shared {
    if o.symbol !in sh.books then sh.(outgoing := sh.outgoing + [Rejected(o)])
    else Submitted(sh.(outgoing := sh.outgoing + [Accepted(o)]), NewTask(o))
  }

  /** A task executed on its live book, its reports sent; an unfound cancel is submitted again instead. */
  function TaskDone(sh: Shared, t: Task): Shared {
    var done := sh.(books := BooksAfter(sh.books, t));
    if Unfound(sh.books, t) then Submitted(done, t)
    else done.(outgoing := sh.outgoing + SentReports(Executed(sh.books, t).log))
  }

  function Matched(b: Book, o: FreshOrder): SymbolState { MatchAll(SymbolState(Insert(b, o), [])) }

  lemma SentByNewOrder(b: Book, o: FreshOrder)
    ensures var e := Exec(SymbolState(b, []), NewTask(o));
            e.book == Matched(b, o).book && SentReports(e.log) == SentReports(Matched(b, o).log)
  {
    var r := MatchAll(SymbolState(Insert(b, o), []));
    assert [] + [Entered(o)] == [Entered(o)];
    MatchAppends(Insert(b, o), [Entered(o)]);
    SentReportsAppend([Entered(o)], r.log);
    assert SentReports([Entered(o)]) == [];
  }

  lemma MapTwice<K, V>(m: map<K, V>, k: K, v: V, w: V)
    ensures m[k := v][k := w] == m[k := w]
  {
  }

  /** A new order on a symbol that has a book: it is inserted, the book is matched and the fills are reported. */
  function MatchedIn(sh: Shared, o: FreshOrder): Shared
    requires o.symbol in sh.books
  {
    var r := Matched(sh.books[o.symbol], o);
    sh.(books := sh.books[o.symbol := r.book], outgoing := sh.outgoing + SentReports(r.log))
  }

  /** Executing a new order: first the dictionary gets an entry for the symbol, then its book is matched. */
  lemma NewOrderDone(sh: Shared, o: FreshOrder, b: Book)
    requires b == BookOf(sh.books, o.symbol)
    ensures TaskDone(sh, NewTask(o)) == MatchedIn(sh.(books := sh.books[o.symbol := b]), o)
  {
    SentByNewOrder(b, o);
    MapTwice(sh.books, o.symbol, b, Matched(b, o).book);
  }

  /** A cancel on a symbol that has a book: the order it finds is cancelled, reported and erased; if it finds none it
      is submitted again. */
  function CancelledIn(sh: Shared, t: Task): Shared
    requires t.CancelTask? && t.symbol in sh.books
  {
    var b := sh.books[t.symbol];
    match FindOn(b.On(t.side), t.owner, t.origID)
    case None => Submitted(sh, t)
    case Some(i) =>
      sh.(books := sh.books[t.symbol := CancelEntry(b, t.owner, t.origID, t.side, i)],
          outgoing := sh.outgoing + [CancelReport(b.On(t.side)[i].Cancel())])
  }

  /** Executing a cancel: first the dictionary gets an entry for the symbol, then its book is searched. */
  lemma CancelDone(sh: Shared, t: Task, b: Book)
    requires t.CancelTask? && b == BookOf(sh.books, t.symbol)
    ensures TaskDone(sh, t) == CancelledIn(sh.(books := sh.books[t.symbol := b]), t)
  {
    var found := FindOn(b.On(t.side), t.owner, t.origID);
    if found.Some? {
      SentByCancel(b, t, found.value);
      MapTwice(sh.books, t.symbol, b, CancelEntry(b, t.owner, t.origID, t.side, found.value));
    }
  }

  lemma SentByCancel(b: Book, t: Task, i: nat)
    requires t.CancelTask? && FindOn(b.On(t.side), t.owner, t.origID) == Some(i)
    ensures var o := b.On(t.side)[i].Cancel();
            && Exec(SymbolState(b, []), t).book == Erase(Flagged(b, t.side, i), o)
            && SentReports(Exec(SymbolState(b, []), t).log) == [CancelReport(o)]
  {
    var e := Sent(CancelReport(b.On(t.side)[i].Cancel()));
    assert [] + [e] == [e];
    assert SentReports([e]) == SentReports([]) + [e.report] by {
      assert [e][..0] == [];
    }
  }

  lemma InitialNext(names: seq<string>, i: nat)
    requires i < |names|
    ensures InitialBooks(names[..i + 1])
        == InitialBooks(names[..i])[names[i] := BookOf(InitialBooks(names[..i]), names[i])]
    ensures InitialQueues(names[..i + 1])
         == if names[i] in InitialQueues(names[..i]) then InitialQueues(names[..i])
             else InitialQueues(names[..i])[names[i] := i]
  {
    assert names[..i + 1][..i] == names[..i];
    assert names[..i + 1] == names[..i] + [names[i]];
  }

  /** What taskNewOrder does to the book. */
  method InsertAndProcess(book: OrderBook, order: FreshOrder) returns (processed: seq<Order>)
    requires book.Valid()
    modifies book
    ensures book.Valid()
    ensures book.View() == Matched(old(book.View()), order).book
    ensures FillReports(processed) == SentReports(Matched(old(book.View()), order).log)
  {
    book.Insert(order);
    var any;
    any, processed := book.ProcessMatching([]);
    assert processed[0..] == processed;
  }

  /** What taskCancelOrder does to the book when Find has found `position`. */
  method FlagReportErase(book: OrderBook, t: Task, position: nat, outgoing: seq<Report>) returns (sent: seq<Report>)
    requires book.Valid() && t.CancelTask? && FindOn(book.On(t.side), t.owner, t.origID) == Some(position)
    modifies book
    ensures book.Valid()
    ensures book.View() == CancelEntry(old(book.View()), t.owner, t.origID, t.side, position)
    ensures sent == outgoing + [CancelReport(old(book.On(t.side)[position]).Cancel())]
  {
    ghost var after: Book := CancelEntry(book.View(), t.owner, t.origID, t.side, position);
    var order := book.CancelAt(t.side, position);
    sent := outgoing + [Report(order, CANCELED, "Order canceled")];
    book.Erase(order);
    assert book.View() == after;
  }

  class CentralOrderBook {
    var orderBookDictionary: map<string, OrderBook>
    var queueIDDictionary: map<string, nat>
    var outgoingMessages: seq<Report>
    const threadPool: ThreadPool
    ghost var Repr: set<OrderBook>           // the book objects
    ghost var books: map<string, Book>       // what they hold

    /** Every symbol has its own book object - keys tell them apart - and the object holds the symbol's book. */
    ghost predicate Valid()
      reads this`orderBookDictionary, this`books, this`Repr, Repr
    {
      && orderBookDictionary.Keys == books.Keys
      && (forall s :: s in books ==> Owns(s))
      && (forall s :: s in books ==> orderBookDictionary[s].View() == books[s])
    }

    ghost predicate Owns(s: string)
      requires s in orderBookDictionary
      reads this`orderBookDictionary, this`Repr
    {
      orderBookDictionary[s] in Repr && orderBookDictionary[s].key == s
    }

    /** Changing one book object leaves every other symbol's book alone. */
    twostate lemma OthersKept(symbol: string)
      requires old(Valid()) && symbol in books
      requires unchanged(this`orderBookDictionary) && unchanged(this`Repr) && unchanged(this`books)
      requires forall other :: other in Repr && other != orderBookDictionary[symbol] ==> unchanged(other)
      ensures forall s :: s in books && s != symbol ==> orderBookDictionary[s].View() == books[s]
    {
      forall s | s in books && s != symbol ensures orderBookDictionary[s].View() == books[s] {
        assert old(orderBookDictionary[s].View()) == books[s];
        assert Owns(s) && Owns(symbol) && unchanged(orderBookDictionary[s]);
      }
    }

    /** Records what one symbol's book object now holds; every other object still holds its symbol's book. */
    ghost method Record(symbol: string, after: Book)
      requires orderBookDictionary.Keys == books.Keys && symbol in books && forall s :: s in books ==> Owns(s)
      requires forall s :: s in books && s != symbol ==> orderBookDictionary[s].View() == books[s]
      requires orderBookDictionary[symbol].View() == after
      modifies this`books
      ensures Valid() && books == old(books)[symbol := after]
    {
      ghost var updated := books[symbol := after];
      forall s | s in updated ensures orderBookDictionary[s].View() == updated[s] {
        if s != symbol {
          assert orderBookDictionary[s].View() == books[s];
        }
      }
      books := updated;
    }

    ghost function View(): Shared
      reads this, threadPool
    {
      Shared(books, queueIDDictionary, threadPool.threadQueues, outgoingMessages)
    }

    /** Thread names are symbol names. */
    constructor (threadNames: seq<string>)
      requires threadNames != []
      ensures Valid() && fresh(Repr) && fresh(threadPool)
      ensures View() == Shared(InitialBooks(threadNames), InitialQueues(threadNames), seq(|threadNames|, _ => []), [])
    {
      orderBookDictionary := map[];
      queueIDDictionary := map[];
      outgoingMessages := [];
      threadPool := new ThreadPool(threadNames);
      books := map[];
      Repr := {};
      new;
      var i := 0;
      while i < |threadNames|
        invariant 0 <= i <= |threadNames|
        invariant Valid() && fresh(Repr) && fresh(threadPool) && outgoingMessages == []
        invariant threadPool.threadQueues == seq(|threadNames|, _ => [])
        invariant books == InitialBooks(threadNames[..i])
        invariant queueIDDictionary == InitialQueues(threadNames[..i])
      {
        InitialNext(threadNames, i);
        AddSymbol(threadNames[i], i);
        i := i + 1;
      }
      assert threadNames[..i] == threadNames;
    }

    /** Both dictionaries keep an entry they already have. */
    method AddSymbol(symbol: string, queueID: nat)
      requires Valid()
      modifies this`orderBookDictionary, this`queueIDDictionary, this`Repr, this`books
      ensures Valid() && fresh(Repr - old(Repr)) && old(Repr) <= Repr
      ensures books == old(books)[symbol := BookOf(old(books), symbol)]
      ensures queueIDDictionary
           == if symbol in old(queueIDDictionary) then old(queueIDDictionary)
              else old(queueIDDictionary)[symbol := queueID]
    {
      if symbol !in queueIDDictionary {
        queueIDDictionary := queueIDDictionary[symbol := queueID];
      }
      var book := Entry(symbol);
    }

    /** Indexing the dictionary: a missing symbol gets a new empty book. */
    method Entry(symbol: string) returns (book: OrderBook)
      requires Valid()
      modifies this`orderBookDictionary, this`Repr, this`books
      ensures Valid() && fresh(Repr - old(Repr)) && old(Repr) <= Repr && View() == old(View()).(books := books)
      ensures books == old(books)[symbol := BookOf(old(books), symbol)]
      ensures symbol in books && orderBookDictionary[symbol] == book
    {
      if symbol !in orderBookDictionary {
        book := new OrderBook(symbol);
        orderBookDictionary := orderBookDictionary[symbol := book];
        Repr, books := Repr + {book}, books[symbol := EMPTY_BOOK];
      }
      book := orderBookDictionary[symbol];
    }

    /** A new order on an existing book; `processed` are the orders that traded. */
    method InsertAndMatch(order: FreshOrder) returns (processed: seq<Order>)
      requires Valid() && order.symbol in books
      modifies this`books, orderBookDictionary[order.symbol]
      ensures Valid() && Repr == old(Repr)
      ensures books == old(books)[order.symbol := Matched(old(books)[order.symbol], order).book]
      ensures FillReports(processed) == SentReports(Matched(old(books)[order.symbol], order).log)
    {
      var book := orderBookDictionary[order.symbol];
      processed := InsertAndProcess(book, order);
      Record(order.symbol, book.View());
    }

    /** What is left of a new-order task once its symbol has a book. */
    method MatchAndSend(order: FreshOrder)
      requires Valid() && order.symbol in books
      modifies this`books, this`outgoingMessages, orderBookDictionary[order.symbol]
      ensures Valid() && Repr == old(Repr) && View() == MatchedIn(old(View()), order)
    {
      var processedOrders := InsertAndMatch(order);
      SendFills(processedOrders);
    }

    method TaskNewOrder(order: FreshOrder)
      requires Valid()
      modifies this`orderBookDictionary, this`Repr, this`books, this`outgoingMessages, Repr
      ensures Valid() && fresh(Repr - old(Repr)) && old(Repr) <= Repr
      ensures View() == TaskDone(old(View()), NewTask(order))
    {
      NewOrderDone(View(), order, BookOf(books, order.symbol));
      var book := Entry(order.symbol);
      MatchAndSend(order);
    }

    /** The loop that drains the queue of processed orders. */
    method SendFills(processed: seq<Order>)
      requires Valid()
      modifies this`outgoingMessages
      ensures Valid() && Repr == old(Repr)
      ensures View() == old(View()).(outgoing := old(outgoingMessages) + FillReports(processed))
    {
      var processedOrders := processed;
      while |processedOrders| != 0
        invariant outgoingMessages + FillReports(processedOrders) == old(outgoingMessages) + FillReports(processed)
      {
        var order := processedOrders[0];
        assert FillReports(processedOrders) == [FillReport(order)] + FillReports(processedOrders[1..]);
        processedOrders := processedOrders[1..];
        var message := Report(order, if order.IsFilled() then FILLED else PARTIALLY_FILLED, "");
        outgoingMessages := outgoingMessages + [message];
      }
      assert outgoingMessages == outgoingMessages + FillReports(processedOrders);
    }

    method RejectOrder(order: Order, message: string)
      modifies this`outgoingMessages
      ensures outgoingMessages == old(outgoingMessages) + [Report(order, REJECTED, message)]
    {
      outgoingMessages := outgoingMessages + [Report(order, REJECTED, message)];
    }

    /** The body shared by both callers of submitTask: `t` goes to the queue its symbol has in the dictionary. */
    method Submit(t: Task) returns (thrown: bool)
      requires Valid()
      modifies this`queueIDDictionary, threadPool
      ensures Valid()
      ensures thrown <==> Throws(old(View()), t)
      ensures View() == Submitted(old(View()), t)
    {
      if t.Symbol() !in queueIDDictionary {
        queueIDDictionary := queueIDDictionary[t.Symbol() := 0];
      }
      thrown := threadPool.SubmitTask(t, queueIDDictionary[t.Symbol()]);
    }

    /** `accepted` is the result; `thrown` says whether submitTask's exception escaped. */
    method AddOrder(order: FreshOrder) returns (accepted: bool, thrown: bool)
      requires Valid()
      modifies this`queueIDDictionary, this`outgoingMessages, threadPool
      ensures Valid()
      ensures accepted <==> order.symbol in books
      ensures thrown <==> accepted && Throws(old(View()), NewTask(order))
      ensures View() == Added(old(View()), order)
      ensures accepted ==> outgoingMessages == old(outgoingMessages) + [Report(order, ACCEPTED, "")]
      ensures !accepted ==>
                outgoingMessages == old(outgoingMessages) + [Report(order, REJECTED, "Symbol not supported")]
      ensures !accepted ==> queueIDDictionary == old(queueIDDictionary)
                            && threadPool.threadQueues == old(threadPool.threadQueues)
    {
      if order.symbol !in orderBookDictionary {
        RejectOrder(order, "Symbol not supported");
        return false, false;
      }
      outgoingMessages := outgoingMessages + [Report(order, ACCEPTED, "")];
      accepted := true;
      thrown := Submit(NewTask(order));
    }

    method CancelOrder(t: Task) returns (thrown: bool)
      requires Valid() && t.CancelTask?
      modifies this`queueIDDictionary, threadPool
      ensures Valid()
      ensures thrown <==> Throws(old(View()), t)
      ensures View() == Submitted(old(View()), t)
    {
      thrown := Submit(t);
    }

    /** On an existing book: flag the order that Find points to, report it, erase it. */
    method FlagAndErase(t: Task, position: nat)
      requires Valid() && t.CancelTask? && t.symbol in books
      requires FindOn(books[t.symbol].On(t.side), t.owner, t.origID) == Some(position)
      modifies this`books, this`outgoingMessages, orderBookDictionary[t.symbol]
      ensures Valid() && Repr == old(Repr)
      ensures books == old(books)[t.symbol := CancelEntry(old(books)[t.symbol], t.owner, t.origID, t.side, position)]
      ensures outgoingMessages
           == old(outgoingMessages) + [CancelReport(old(books)[t.symbol].On(t.side)[position].Cancel())]
    {
      var book := orderBookDictionary[t.symbol];
      outgoingMessages := FlagReportErase(book, t, position, outgoingMessages);
      OthersKept(t.symbol);
      Record(t.symbol, book.View());
    }

    /** The task when Find has found `position`. */
    method CancelFound(t: Task, position: nat)
      requires Valid() && t.CancelTask? && t.symbol in books
      requires FindOn(books[t.symbol].On(t.side), t.owner, t.origID) == Some(position)
      modifies this`books, this`outgoingMessages, orderBookDictionary[t.symbol]
      ensures Valid() && Repr == old(Repr) && View() == CancelledIn(old(View()), t)
    {
      FlagAndErase(t, position);
    }

    /** What is left of a cancel task once its symbol has a book. */
    method FindAndCancel(t: Task) returns (thrown: bool)
      requires Valid() && t.CancelTask? && t.symbol in books
      modifies this`queueIDDictionary, this`books, this`outgoingMessages, threadPool, Repr
      ensures Valid() && Repr == old(Repr)
      ensures thrown <==> Unfound(old(books), t) && Throws(old(View()), t)
      ensures View() == CancelledIn(old(View()), t)
    {
      var book := orderBookDictionary[t.symbol];
      var found, position := book.Find(t.owner, t.origID, t.side);
      if found {
        CancelFound(t, position);
        thrown := false;
      } else {
        thrown := CancelOrder(t);
      }
    }

    method TaskCancelOrder(t: Task) returns (thrown: bool)
      requires Valid() && t.CancelTask?
      modifies this`orderBookDictionary, this`queueIDDictionary, this`Repr, this`books, this`outgoingMessages,
               threadPool, Repr
      ensures Valid() && fresh(Repr - old(Repr)) && old(Repr) <= Repr
      ensures thrown <==> Unfound(old(books), t) && Throws(old(View()), t)
      ensures View() == TaskDone(old(View()), t)
    {
      CancelDone(View(), t, BookOf(books, t.symbol));
      var book := Entry(t.symbol);
      thrown := FindAndCancel(t);
    }

    /** What a worker does with a task it popped. */
    method ExecuteTask(t: Task) returns (thrown: bool)
      requires Valid()
      modifies this`orderBookDictionary, this`queueIDDictionary, this`Repr, this`books, this`outgoingMessages,
               threadPool, Repr
      ensures Valid() && fresh(Repr - old(Repr)) && old(Repr) <= Repr
      ensures thrown <==> Unfound(old(books), t) && Throws(old(View()), t)
      ensures View() == TaskDone(old(View()), t)
    {
      match t
      case NewTask(order) =>
        TaskNewOrder(order);
        thrown := false;
      case CancelTask(_, _, _, _) =>
        thrown := TaskCancelOrder(t);
    }
  }
}
