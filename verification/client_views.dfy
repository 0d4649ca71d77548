/** What the reports about one order tell its client, field by field: under every interleaving, in the single-threaded
    mode, and for the engine object. */
module ClientViews {
  import opened Filters
  import opened Orders
  import opened Matching
  import opened SymbolRuns
  import opened OrderReports
  import opened TradingSystem
  import opened OrderFlow
  import opened ClientStreams
  import opened Provenance
  import opened Answers
  import opened SingleThreaded
  import opened Equivalence
  import opened DrainedRuns
  import opened Engines

  /** The reports `stream` about the order `o` that a client sent: the first repeats it untouched, all keep its terms, a
      cancellation changes nothing but the flag since the report before it, and as long as nothing is executed there is
      no average and no last price. */
  ghost predicate Tells(o: Order, stream: seq<Report>) {
    && (stream != [] ==> SameButArrival(stream[0].order, o))
    && (forall k :: 0 <= k < |stream| ==> SameTerms(stream[k].order, o))
    && (forall k :: 0 <= k < |stream| && stream[k].kind == CANCELED ==>
          k > 0 && SameButCancelled(stream[k - 1].order, stream[k].order))
    && (forall k :: 0 <= k < |stream| ==> (stream[k].order.cancelled <==> stream[k].kind == CANCELED))
    && (forall k :: 0 <= k < |stream| && stream[k].order.executed == 0 ==>
          stream[k].order.averagePrice == 0.0 && stream[k].order.lastPrice == 0.0 && stream[k].order.lastQuantity == 0)
  }

  /** Report `k` of an accepted order's stream is event `k` of its story. */
  lemma StoryAt(stream: seq<Report>, k: nat)
    requires stream != [] && k < |stream|
    ensures |Story(stream)| == |stream| && OrderOf(Story(stream)[k]) == stream[k].order
    ensures k > 0 ==> Story(stream)[k] == Sent(stream[k])
  {
  }

  lemma LegalStreamTells(o: FreshOrder, stream: seq<Report>)
    requires ClientStreamOk(stream) && (stream != [] ==> SameButArrival(stream[0].order, o))
    requires forall k :: 0 <= k < |stream| ==> SameTerms(stream[k].order, o)
    ensures Tells(o, stream)
  {
    if stream != [] && stream[0].kind == ACCEPTED {
      var story := Story(stream);
      LifeCancelsCleanly(story);
      forall k | 0 <= k < |stream|
        ensures Unpriced(stream[k].order) && (stream[k].order.cancelled <==> stream[k].kind == CANCELED)
        ensures stream[k].kind == CANCELED ==> k > 0 && SameButCancelled(stream[k - 1].order, stream[k].order)
      {
        StoryAt(stream, k);
        if k > 0 {
          StoryAt(stream, k - 1);
        }
        assert Unpriced(OrderOf(story[k]));
      }
    }
  }

  lemma TruthfulStreamTells(ms: seq<Message>, outgoing: seq<Report>, n: nat)
    requires ClientStreamOk(StreamOf(outgoing, n)) && forall r :: r in outgoing ==> Truthful(ms, r)
    ensures var stream := StreamOf(outgoing, n);
            stream != [] ==> n < |ms| && ms[n].NewMessage? && Tells(ms[n].order, stream)
  {
    var stream := StreamOf(outgoing, n);
    FilterMembers(outgoing, ByArrival(n));
    forall k | 0 <= k < |stream| ensures Truthful(ms, stream[k]) && stream[k].order.arrival == n {
      assert stream[k] in stream;
    }
    if stream != [] {
      LegalStreamTells(ms[n].order, stream);
    }
  }

  /** Under every interleaving. */
  lemma EveryStreamTells(names: seq<string>, steps: seq<Step>, n: nat)
    requires names != []
    ensures var y := After(names, steps); var stream := StreamOf(y.outgoing, n);
            stream != [] ==>
              n < y.dispatched <= |y.pushed| && y.pushed[n].NewMessage? && Tells(y.pushed[n].order, stream)
  {
    var y := After(names, steps);
    EverythingComesFromClients(names, steps);
    EveryOrdersStreamIsOk(names, steps, n);
    TruthfulStreamTells(TakenUp(y), y.outgoing, n);
  }

  lemma {:induction false} KnownIsAccepted(names: seq<string>, ms: seq<Message>, n: nat)
    requires n < |ms| && ms[n].NewMessage? && ms[n].order.symbol in names
    ensures NewTask(Stamp(ms[n].order, n)) in TasksFrom(names, ms)
  {
    var last := |ms| - 1;
    if n < last {
      KnownIsAccepted(names, ms[..last], n);
    } else {
      assert TasksFrom(names, ms)[|TasksFrom(names, ms[..last])|] == NewTask(Stamp(ms[n].order, n));
    }
  }

  /** One at a time, exactly the orders on configured symbols are accepted. */
  lemma AcceptedIsConfigured(names: seq<string>, ms: seq<Message>, y: System, n: nat)
    requires y.accepted == TasksFrom(names, ms) && y.pushed == ms && IsNew(y, n)
    ensures Answer(y, n).kind == ACCEPTED <==> ms[n].order.symbol in names
  {
    var t := NewTask(Stamped(y, n));
    if t in y.accepted {
      AcceptedSymbolIsKnown(names, ms, t);
    }
    if ms[n].order.symbol in names {
      KnownIsAccepted(names, ms, n);
    }
  }

  /** Some run ends with the outgoing reports of the single-threaded mode and answers every order. */
  lemma SingleIsAnswered(names: seq<string>, ms: seq<Message>, n: nat)
    requires names != [] && CancelsFind(names, ms)
    ensures var z := SingleRun(names, ms); var stream := StreamOf(z.outgoing, n);
            && (forall r :: r in z.outgoing ==> Truthful(ms, r))
            && ClientStreamOk(stream)
            && (stream != [] <==> n < |ms| && ms[n].NewMessage?)
            && (stream != [] ==> (stream[0].kind == ACCEPTED <==> ms[n].order.symbol in names))
  {
    var steps := EveryScriptDrains(names, ms);
    var y := After(names, steps);
    EverythingComesFromClients(names, steps);
    DrainedHasDispatchedAll(y);
    assert TakenUp(y) == ms;
    EveryOrdersStreamIsOk(names, steps, n);
    EveryOrderIsAnswered(names, steps, n);
    EveryRunIsInStep(names, steps);
    if n < |ms| && ms[n].NewMessage? {
      AcceptedIsConfigured(names, ms, y, n);
    }
  }

  /** In the single-threaded mode too every order is answered, ACCEPTED exactly if its symbol is configured, its stream
      is legal and tells the same, and every report is truthful. */
  lemma SingleStreamsTell(names: seq<string>, ms: seq<Message>, n: nat)
    requires names != [] && CancelsFind(names, ms)
    ensures var z := SingleRun(names, ms); var stream := StreamOf(z.outgoing, n);
            && (forall r :: r in z.outgoing ==> Truthful(ms, r))
            && ClientStreamOk(stream)
            && (stream != [] <==> n < |ms| && ms[n].NewMessage?)
            && (stream != [] ==> Tells(ms[n].order, stream))
            && (stream != [] ==> (stream[0].kind == ACCEPTED <==> ms[n].order.symbol in names))
  {
    SingleIsAnswered(names, ms, n);
    TruthfulStreamTells(ms, SingleRun(names, ms).outgoing, n);
  }

  /** For the engine object, whatever was called: what it has sent is truthful about the messages it has taken up, every
      order's stream tells, and so do the tasks it has queued. */
  lemma EngineStreamsTell(engine: Engine, n: nat)
    requires engine.Valid()
    ensures engine.machine.dispatched <= |engine.machine.pushed|
    ensures var ms := TakenUp(engine.machine); var book := engine.centralOrderBook;
            && (forall r :: r in book.outgoingMessages ==> Truthful(ms, r))
            && (forall q, t :: 0 <= q < |book.threadPool.threadQueues| && t in book.threadPool.threadQueues[q] ==>
                  TaskComesFrom(ms, t))
            && var stream := StreamOf(book.outgoingMessages, n);
               stream != [] ==> n < |ms| && ms[n].NewMessage? && Tells(ms[n].order, stream)
  {
    var steps :| engine.machine == After(engine.names, steps);
    EverythingComesFromClients(engine.names, steps);
    EveryOrdersStreamIsOk(engine.names, steps, n);
    TruthfulStreamTells(TakenUp(engine.machine), engine.machine.outgoing, n);
  }
}
