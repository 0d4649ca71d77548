/** What one client sees of one order in the whole engine's outgoing stream, under every interleaving. */
module ClientStreams {
  import opened Filters
  import opened Orders
  import opened Matching
  import opened SymbolRuns
  import opened OrderLives
  import opened Priority
  import opened OrderReports
  import opened TradingSystem
  import opened SystemSafety
  import opened OrderFlow
  import opened ReportStreams

  ghost predicate HasAcceptance(outgoing: seq<Report>, j: nat, n: nat)
    requires j <= |outgoing|
  {
    exists i :: 0 <= i < j && outgoing[i].kind == ACCEPTED && outgoing[i].order.arrival == n
  }

  /** A number's first report is the dispatcher's and its only one; workers report on accepted orders only. */
  ghost predicate WellAnnounced(outgoing: seq<Report>) {
    && (forall i, j :: 0 <= i < j < |outgoing| && outgoing[i].order.arrival == outgoing[j].order.arrival ==>
          !outgoing[j].IsAnnouncement())
    && (forall j :: 0 <= j < |outgoing| && !outgoing[j].IsAnnouncement() ==>
          HasAcceptance(outgoing, j, outgoing[j].order.arrival))
    && (forall j :: 0 <= j < |outgoing| && outgoing[j].kind == ACCEPTED ==> outgoing[j].order.Fresh())
  }

  ghost predicate AcceptancesSent(y: System) {
    forall t :: t in y.accepted && t.NewTask? && t.order.arrival < Bound(y) ==> Accepted(t.order) in y.outgoing
  }

  ghost predicate Announced(y: System) {
    && WellAnnounced(y.outgoing)
    && (forall r :: r in y.outgoing ==> r.order.arrival < Bound(y))
    && AcceptancesSent(y)
  }

  lemma AcceptanceStays(outgoing: seq<Report>, r: Report, j: nat, n: nat)
    requires j <= |outgoing| && HasAcceptance(outgoing, j, n)
    ensures HasAcceptance(outgoing + [r], j, n)
  {
    var i :| 0 <= i < j && outgoing[i].kind == ACCEPTED && outgoing[i].order.arrival == n;
    assert (outgoing + [r])[i] == outgoing[i];
  }

  lemma AppendAnnounced(outgoing: seq<Report>, r: Report)
    requires WellAnnounced(outgoing)
    requires r.IsAnnouncement() ==> forall x :: x in outgoing ==> x.order.arrival != r.order.arrival
    requires !r.IsAnnouncement() ==> HasAcceptance(outgoing, |outgoing|, r.order.arrival)
    requires r.kind == ACCEPTED ==> r.order.Fresh()
    ensures WellAnnounced(outgoing + [r])
  {
    forall j | 0 <= j < |outgoing + [r]| && !(outgoing + [r])[j].IsAnnouncement()
      ensures HasAcceptance(outgoing + [r], j, (outgoing + [r])[j].order.arrival)
    {
      AcceptanceStays(outgoing, r, j, (outgoing + [r])[j].order.arrival);
    }
  }

  lemma AnnounceKeepsAnnounced(y: System)
    requires Numbered(y) && Announced(y) && y.dispatcher.Announcing?
    ensures Announced(AnnounceOne(y))
  {
    var r, y' := y.dispatcher.report, AnnounceOne(y);
    AppendAnnounced(y.outgoing, r);
    forall t | t in y'.accepted && t.NewTask? && t.order.arrival < Bound(y') ensures Accepted(t.order) in y'.outgoing {
      if t.order.arrival < Bound(y) {
        assert Accepted(t.order) in y.outgoing;
      } else {
        PendingIsTheOne(y, t);
        assert y'.outgoing[|y.outgoing|] == r;
      }
    }
  }

  lemma PendingIsTheOne(y: System, t: Task)
    requires Numbered(y) && y.dispatcher.Announcing? && t in y.accepted && t.NewTask? && t.order.arrival >= Bound(y)
    ensures y.dispatcher.report == Accepted(t.order)
  {
    var i :| 0 <= i < |y.accepted| && y.accepted[i] == t;
    assert t.order.arrival == y.dispatched - 1;
    if y.dispatcher.next.Some? {
      var j :| 0 <= j < |y.accepted| && y.accepted[j] == y.dispatcher.next.value;
      SameNumberSameTask(y.accepted, i, j);
    }
  }

  lemma SameNumberSameTask(ts: seq<Task>, i: nat, j: nat)
    requires NumberedInOrder(ts) && i < |ts| && j < |ts| && ts[i].NewTask? && ts[j].NewTask?
    requires ts[i].order.arrival == ts[j].order.arrival
    ensures i == j
  {
  }

  lemma DispatchKeepsAnnounced(y: System)
    requires Numbered(y) && Announced(y) && Enabled(y, Dispatch)
    ensures Announced(DispatchOne(y))
  {
    var y' := DispatchOne(y);
    assert y.batch[0].CancelMessage? ==> Bound(y') == Bound(y) + 1;
    forall t | t in y'.accepted && t.NewTask? && t.order.arrival < Bound(y') ensures Accepted(t.order) in y'.outgoing {
      if t in y.accepted {
        var i :| 0 <= i < |y.accepted| && y.accepted[i] == t;
        assert t.order.arrival < Bound(y);
      }
    }
  }

  /** A worker's report, sent or about to be, is from its symbol's history, and its order was accepted before. */
  lemma HistoryReportIsAnnounced(names: seq<string>, y: System, r: Report) returns (o: FreshOrder)
    requires Numbered(y) && NewOrdersFlow(names, y) && Announced(y)
    requires r in SentReports(History(y, r.order.symbol).log)
    ensures r.order.arrival == o.arrival < Bound(y) && r.order.symbol == o.symbol && Accepted(o) in y.outgoing
    ensures HasAcceptance(y.outgoing, |y.outgoing|, o.arrival)
    ensures var life := Of(History(y, o.symbol).log, o.arrival); LifeOk(life) && life != [] && life[0] == Entered(o)
  {
    o := ReportHasTask(names, y, r.order.symbol, r);
    assert Accepted(o) in y.outgoing;
    var i :| 0 <= i < |y.outgoing| && y.outgoing[i] == Accepted(o);
    assert y.outgoing[i].kind == ACCEPTED;
    HistoryIsSound(names, y, o.symbol);
  }

  lemma UnsentIsHistory(names: seq<string>, y: System, w: nat, r: Report)
    requires w < |y.workers| && y.workers[w].Reporting? && r in y.workers[w].unsent
    requires Home(names, r.order.symbol) == w && FromWorker(r.order.symbol)(r) && ReportsKept(names, y, r.order.symbol)
    ensures r in SentReports(History(y, r.order.symbol).log)
  {
    FilterMembers(y.workers[w].unsent, FromWorker(r.order.symbol));
    assert r in Filter(y.workers[w].unsent, FromWorker(r.order.symbol));
  }

  lemma SentIsHistory(names: seq<string>, y: System, r: Report)
    requires r in y.outgoing && FromWorker(r.order.symbol)(r) && ReportsKept(names, y, r.order.symbol)
    ensures r in SentReports(History(y, r.order.symbol).log)
  {
    FilterMembers(y.outgoing, FromWorker(r.order.symbol));
    assert r in Filter(y.outgoing, FromWorker(r.order.symbol));
  }

  lemma SendKeepsAnnounced(names: seq<string>, y: System, w: nat)
    requires Numbered(y) && NewOrdersFlow(names, y) && Announced(y)
    requires w < |y.workers| && y.workers[w].Reporting?
    requires y.workers[w].unsent != [] ==>
               var r := y.workers[w].unsent[0];
               FromWorker(r.order.symbol)(r) && r in SentReports(History(y, r.order.symbol).log)
    ensures Announced(SendOn(y, w))
  {
    if y.workers[w].unsent != [] {
      var r := y.workers[w].unsent[0];
      var o := HistoryReportIsAnnounced(names, y, r);
      AppendAnnounced(y.outgoing, r);
    }
  }

  // ---------------------------------------------------------------- the system invariant

  ghost predicate WorkersReport(y: System) {
    forall q, r :: 0 <= q < |y.workers| && y.workers[q].Reporting? && r in y.workers[q].unsent ==>
        FromWorker(r.order.symbol)(r)
  }

  ghost predicate SystemInvariant(names: seq<string>, y: System) {
    && Routed(names, y) && BooksMatch(names, y) && MessagesKept(y)
    && Numbered(y) && NewOrdersFlow(names, y)
    && WorkersReport(y) && (forall s :: ReportsKept(names, y, s))
    && Announced(y)
  }

  lemma ExecuteKeepsWorkersReport(names: seq<string>, y: System, q: nat)
    requires BooksMatch(names, y) && WorkersReport(y) && q < |y.workers| && y.workers[q].Running?
    ensures WorkersReport(ExecuteOn(y, q))
  {
    assert BookIs(y.books, y.executed, y.workers[q].task.Symbol());
    NewReports(y.books, y.executed, y.workers[q].task);
  }

  lemma SendKeepsWorkersReport(y: System, q: nat)
    requires WorkersReport(y) && q < |y.workers| && y.workers[q].Reporting?
    ensures WorkersReport(SendOn(y, q))
  {
    assert forall r :: r in y.workers[q].unsent ==> FromWorker(r.order.symbol)(r);
  }

  lemma StepKeepsWorkersReport(names: seq<string>, y: System, step: Step)
    requires BooksMatch(names, y) && WorkersReport(y) && Enabled(y, step)
    ensures WorkersReport(Perform(y, step))
  {
    if step.ExecuteTask? {
      ExecuteKeepsWorkersReport(names, y, step.q);
    } else if step.SendReport? {
      SendKeepsWorkersReport(y, step.q);
    } else {
      OthersStartNoReport(y, step);
    }
  }

  /** Every other step leaves the workers' reports as they are. */
  lemma OthersStartNoReport(y: System, step: Step)
    requires Enabled(y, step) && !step.ExecuteTask? && !step.SendReport?
    ensures var y' := Perform(y, step);
            && |y'.workers| == |y.workers|
            && forall q :: 0 <= q < |y.workers| && y'.workers[q].Reporting? ==> y'.workers[q] == y.workers[q]
  {
    match step
    case Submit => SubmitEffect(y.(dispatcher := Ready), y.dispatcher.task);
    case Resubmit(w) => SubmitEffect(y.(workers := y.workers[w := Waiting]), y.workers[w].task);
    case _ =>
  }

  lemma QuietKeepsAnnounced(y: System, step: Step)
    requires Announced(y) && Enabled(y, step) && !step.Announce? && !step.Dispatch? && !step.SendReport?
    ensures Announced(Perform(y, step))
  {
    var y' := Perform(y, step);
    assert y'.outgoing == y.outgoing && y'.accepted == y.accepted && Bound(y') == Bound(y);
  }

  lemma StepKeepsAnnounced(names: seq<string>, y: System, step: Step)
    requires SystemInvariant(names, y) && Enabled(y, step)
    ensures Announced(Perform(y, step))
  {
    if step.Announce? {
      AnnounceKeepsAnnounced(y);
    } else if step.Dispatch? {
      DispatchKeepsAnnounced(y);
    } else if step.SendReport? {
      if y.workers[step.q].unsent != [] {
        assert AtHome(names, y.workers[step.q], step.q);
        UnsentIsHistory(names, y, step.q, y.workers[step.q].unsent[0]);
      }
      SendKeepsAnnounced(names, y, step.q);
    } else {
      QuietKeepsAnnounced(y, step);
    }
  }

  lemma StepKeepsInvariant(names: seq<string>, y: System, step: Step)
    requires SystemInvariant(names, y)
    ensures SystemInvariant(names, Apply(y, step))
  {
    if Enabled(y, step) {
      StepKeepsRouted(names, y, step);
      StepKeepsBooks(names, y, step);
      StepKeepsMessages(y, step);
      StepKeepsNumbered(names, y, step);
      StepKeepsNewOrdersFlow(names, y, step);
      StepKeepsWorkersReport(names, y, step);
      StepKeepsAnnounced(names, y, step);
      forall s ensures ReportsKept(names, Perform(y, step), s) {
        StepKeepsReports(names, y, step, s);
      }
    }
  }

  lemma StartOfSymbol(names: seq<string>, s: string)
    requires names != []
    ensures var y := Start(names);
            && BookOf(y.books, s) == History(y, s).book
            && ReportsKept(names, y, s) && StillFlows(names, y, Home(names, s), NewFor(s))
  {
    var y := Start(names);
    var q := Home(names, s);
    HomeIsFirstMention(names, s);
    assert y.workers[q] == Waiting && y.queues[q] == [];
    assert History(y, s) == START by {
      assert TasksOf([], s) == [];
    }
    assert KeptAs([], Waiting, [], s);
    assert Pipeline(y, q) == [];
    assert Adds([], [], [], NewFor(s));
  }

  lemma StartBooksMatch(names: seq<string>)
    requires names != []
    ensures BooksMatch(names, Start(names))
  {
    forall s ensures BookIs(Start(names).books, [], s) {
      StartOfSymbol(names, s);
    }
  }

  lemma StartIsAnnounced(names: seq<string>)
    ensures var y := Start(names); MessagesKept(y) && WorkersReport(y) && Announced(y)
  {
  }

  lemma StartIsNumbered(names: seq<string>)
    ensures Numbered(Start(names))
  {
    var y := Start(names);
    assert forall q :: 0 <= q < |y.queues| ==> y.queues[q] == [];
    assert forall q :: 0 <= q < |y.workers| ==> y.workers[q] == Waiting;
  }

  lemma StartFlows(names: seq<string>)
    requires names != []
    ensures NewOrdersFlow(names, Start(names)) && forall s :: ReportsKept(names, Start(names), s)
  {
    forall s ensures ReportsKept(names, Start(names), s) && StillFlows(names, Start(names), Home(names, s), NewFor(s)) {
      StartOfSymbol(names, s);
    }
  }

  lemma StartInvariant(names: seq<string>)
    requires names != []
    ensures SystemInvariant(names, Start(names))
  {
    StartIsRouted(names);
    StartBooksMatch(names);
    StartIsAnnounced(names);
    StartIsNumbered(names);
    StartFlows(names);
  }

  /** Every interleaving of sessions, dispatcher and workers keeps the system invariant. */
  lemma {:induction false} EveryRunIsSafe(names: seq<string>, steps: seq<Step>)
    requires names != []
    ensures SystemInvariant(names, After(names, steps))
  {
    if steps == [] {
      StartInvariant(names);
    } else {
      EveryRunIsSafe(names, steps[..|steps| - 1]);
      StepKeepsInvariant(names, After(names, steps[..|steps| - 1]), steps[|steps| - 1]);
    }
  }

  // ---------------------------------------------------------------- one order's reports

  function ByArrival(n: nat): Report -> bool { (r: Report) => r.order.arrival == n }

  function StreamOf(outgoing: seq<Report>, n: nat): seq<Report> { Filter(outgoing, ByArrival(n)) }

  function AsEvents(reports: seq<Report>): seq<Event> {
    seq(|reports|, i requires 0 <= i < |reports| => Sent(reports[i]))
  }

  /** The client's view as a life: the accepted order, then what was reported about it. */
  function Story(stream: seq<Report>): seq<Event>
    requires stream != []
  {
    [Entered(stream[0].order)] + AsEvents(stream[1..])
  }

  /** Nothing yet, one rejection, or an acceptance followed by a legal life. */
  ghost predicate ClientStreamOk(stream: seq<Report>) {
    || stream == []
    || (|stream| == 1 && stream[0].kind == REJECTED)
    || (stream[0].kind == ACCEPTED && LifeOk(Story(stream)) && StreamOk(Story(stream)))
  }

  lemma {:induction false} LifePrefix(life: seq<Event>, k: nat)
    requires LifeOk(life) && k <= |life|
    ensures LifeOk(life[..k])
  {
    if k < |life| {
      if |life| > 1 {
        LifePrefix(life[..|life| - 1], k);
        assert life[..|life| - 1][..k] == life[..k];
      }
    } else {
      assert life[..k] == life;
    }
  }

  lemma SentSnoc(log: seq<Event>, e: Event)
    ensures SentReports(log + [e]) == if e.Sent? then SentReports(log) + [e.report] else SentReports(log)
  {
    assert (log + [e])[..|log|] == log;
  }

  /** Reporting and selecting one order commute. */
  lemma {:induction false} ReportsOfOrder(log: seq<Event>, n: nat)
    ensures SentReports(Of(log, n)) == Filter(SentReports(log), ByArrival(n))
  {
    if log != [] {
      var before, e := log[..|log| - 1], log[|log| - 1];
      ReportsOfOrder(before, n);
      assert log == before + [e];
      OfSnoc(before, e, n);
      SentSnoc(before, e);
      if OrderOf(e).arrival == n {
        SentSnoc(Of(before, n), e);
      }
      if e.Sent? {
        FilterSnoc(SentReports(before), e.report, ByArrival(n));
      }
    }
  }

  lemma {:induction false} ReportsOfLife(life: seq<Event>)
    requires life != [] && life[0].Entered? && forall k :: 0 < k < |life| ==> life[k].Sent?
    ensures AsEvents(SentReports(life)) == life[1..]
  {
    if |life| > 1 {
      ReportsOfLife(life[..|life| - 1]);
      assert life[1..] == life[..|life| - 1][1..] + [life[|life| - 1]];
    } else {
      assert SentReports(life[..0]) == [];
    }
  }

  /** `k` is where number `n` first appears. */
  ghost predicate FirstOf(out: seq<Report>, k: nat, n: nat) {
    && k < |out| && out[k].order.arrival == n
    && forall i :: 0 <= i < k ==> out[i].order.arrival != n
  }

  /** A worker's report leads back to its order's acceptance, which must be the first report with that number. */
  lemma WorkerReportTracesBack(names: seq<string>, y: System, n: nat, k: nat, j: nat)
    requires Numbered(y) && NewOrdersFlow(names, y) && Announced(y)
    requires FirstOf(y.outgoing, k, n) && k < j < |y.outgoing| && y.outgoing[j].order.arrival == n
    requires ReportsKept(names, y, y.outgoing[j].order.symbol)
    ensures var o := y.outgoing[k].order;
            && y.outgoing[k] == Accepted(o) && FromWorker(o.symbol)(y.outgoing[j])
            && var life := Of(History(y, o.symbol).log, n); LifeOk(life) && life != [] && life[0] == Entered(o)
  {
    var r := y.outgoing[j];
    LaterIsFromWorker(y.outgoing, k, j);
    SentIsHistory(names, y, r);
    var o := HistoryReportIsAnnounced(names, y, r);
    AcceptanceIsFirst(y.outgoing, k, o);
  }

  lemma LaterIsFromWorker(out: seq<Report>, k: nat, j: nat)
    requires WellAnnounced(out) && k < j < |out| && out[j].order.arrival == out[k].order.arrival
    requires FirstOf(out, k, out[k].order.arrival)
    ensures FromWorker(out[j].order.symbol)(out[j])
  {
  }

  lemma AcceptanceIsFirst(out: seq<Report>, k: nat, o: Order)
    requires WellAnnounced(out) && FirstOf(out, k, o.arrival) && Accepted(o) in out
    ensures out[k] == Accepted(o)
  {
    var i :| 0 <= i < |out| && out[i] == Accepted(o);
    assert i == k;
  }

  /** Every report after `k` with number `n` is a worker's, for symbol `s`. */
  ghost predicate RestFromWorker(out: seq<Report>, k: nat, s: string, n: nat) {
    forall j :: k < j < |out| && out[j].order.arrival == n ==> FromWorker(s)(out[j])
  }

  lemma FrontGone(out: seq<Report>, k: nat, s: string, n: nat)
    requires FirstOf(out, k, n) && !FromWorker(s)(out[k])
    ensures Filter(Filter(out[..k + 1], FromWorker(s)), ByArrival(n)) == []
  {
    FilterTwiceNone(out[..k + 1], FromWorker(s), ByArrival(n));
  }

  lemma RestStays(out: seq<Report>, k: nat, s: string, n: nat)
    requires k < |out| && RestFromWorker(out, k, s, n)
    ensures Filter(Filter(out[k + 1..], FromWorker(s)), ByArrival(n)) == Filter(out[k + 1..], ByArrival(n))
  {
    var rest := out[k + 1..];
    assert forall i :: 0 <= i < |rest| ==> rest[i] == out[k + 1 + i];
    FilterTwice(rest, FromWorker(s), ByArrival(n));
  }

  /** Selecting one order's worker reports directly, or among its symbol's, is the same. */
  lemma OrderAmongSymbol(out: seq<Report>, k: nat, s: string, n: nat)
    requires FirstOf(out, k, n) && !FromWorker(s)(out[k]) && RestFromWorker(out, k, s, n)
    ensures Filter(Filter(out, FromWorker(s)), ByArrival(n)) == Filter(out[k + 1..], ByArrival(n))
  {
    FrontGone(out, k, s, n);
    RestStays(out, k, s, n);
    assert out == out[..k + 1] + out[k + 1..];
    FilterAppend(out[..k + 1], out[k + 1..], FromWorker(s));
    FilterAppend(Filter(out[..k + 1], FromWorker(s)), Filter(out[k + 1..], FromWorker(s)), ByArrival(n));
  }

  /** What has been sent of an order is a prefix of what its symbol's history reports of it. */
  lemma SentIsPrefix(names: seq<string>, y: System, s: string, n: nat)
    requires ReportsKept(names, y, s)
    ensures Filter(Filter(y.outgoing, FromWorker(s)), ByArrival(n)) <= SentReports(Of(History(y, s).log, n))
  {
    ReportsOfOrder(History(y, s).log, n);
    FilterAppend(Filter(y.outgoing, FromWorker(s)), Filter(Unsent(y.workers[Home(names, s)]), FromWorker(s)),
        ByArrival(n));
  }

  lemma RestIsWorkers(names: seq<string>, y: System, n: nat, k: nat)
    requires Numbered(y) && NewOrdersFlow(names, y) && Announced(y) && forall s :: ReportsKept(names, y, s)
    requires FirstOf(y.outgoing, k, n)
    ensures RestFromWorker(y.outgoing, k, y.outgoing[k].order.symbol, n)
  {
    forall j | k < j < |y.outgoing| && y.outgoing[j].order.arrival == n
      ensures FromWorker(y.outgoing[k].order.symbol)(y.outgoing[j])
    {
      assert ReportsKept(names, y, y.outgoing[j].order.symbol);
      WorkerReportTracesBack(names, y, n, k, j);
    }
  }

  lemma AcceptedStream(names: seq<string>, y: System, n: nat, k: nat, s: string, stream: seq<Report>)
    requires FirstOf(y.outgoing, k, n) && stream != [] && y.outgoing[k] == stream[0] && stream[0].kind == ACCEPTED
    requires Filter(y.outgoing[k + 1..], ByArrival(n)) == stream[1..]
    requires ReportsKept(names, y, s) && RestFromWorker(y.outgoing, k, s, n)
    requires var life := Of(History(y, s).log, n); LifeOk(life) && life != [] && life[0] == Entered(stream[0].order)
    ensures LifeOk(Story(stream))
  {
    OrderAmongSymbol(y.outgoing, k, s, n);
    SentIsPrefix(names, y, s, n);
    StoryIsPrefix(Of(History(y, s).log, n), stream);
  }

  lemma FirstReport(y: System, n: nat, k: nat, stream: seq<Report>)
    requires Announced(y) && FirstOf(y.outgoing, k, n) && stream != [] && y.outgoing[k] == stream[0]
    ensures stream[0].IsAnnouncement()
    ensures stream[0].kind == ACCEPTED && |stream| == 1 ==> LifeOk(Story(stream))
  {
    FirstIsDispatchers(y.outgoing, k, n);
    if |stream| == 1 {
      assert AsEvents(stream[1..]) == [];
    }
  }

  lemma SecondReport(out: seq<Report>, k: nat, n: nat) returns (j: nat)
    requires k < |out| && Filter(out[k + 1..], ByArrival(n)) != []
    ensures k < j < |out| && out[j].order.arrival == n
  {
    var rest := out[k + 1..];
    var k2 := FilterFirst(rest, ByArrival(n));
    assert ByArrival(n)(rest[k2]) && rest[k2] == out[k + 1 + k2];
    j := k + 1 + k2;
  }

  lemma LongStream(names: seq<string>, y: System, n: nat, k: nat, stream: seq<Report>)
    requires Numbered(y) && NewOrdersFlow(names, y) && Announced(y) && forall s :: ReportsKept(names, y, s)
    requires FirstOf(y.outgoing, k, n) && |stream| > 1 && y.outgoing[k] == stream[0]
    requires Filter(y.outgoing[k + 1..], ByArrival(n)) == stream[1..]
    ensures stream[0].kind == ACCEPTED && LifeOk(Story(stream))
  {
    var j := SecondReport(y.outgoing, k, n);
    assert ReportsKept(names, y, y.outgoing[j].order.symbol);
    WorkerReportTracesBack(names, y, n, k, j);
    RestIsWorkers(names, y, n, k);
    AcceptedStream(names, y, n, k, stream[0].order.symbol, stream);
  }

  lemma StreamIsOk(names: seq<string>, y: System, n: nat)
    requires SystemInvariant(names, y)
    ensures ClientStreamOk(StreamOf(y.outgoing, n))
  {
    var stream := StreamOf(y.outgoing, n);
    if stream != [] {
      var k := FilterFirst(y.outgoing, ByArrival(n));
      FirstReport(y, n, k, stream);
      if |stream| > 1 {
        LongStream(names, y, n, k, stream);
      }
      if stream[0].kind == ACCEPTED {
        LifeIsStream(Story(stream));
      }
    }
  }

  /** Under every interleaving, each order's reports are one acceptance followed by a legal life, or one rejection. */
  lemma EveryOrdersStreamIsOk(names: seq<string>, steps: seq<Step>, n: nat)
    requires names != []
    ensures ClientStreamOk(StreamOf(After(names, steps).outgoing, n))
  {
    EveryRunIsSafe(names, steps);
    StreamIsOk(names, After(names, steps), n);
  }

  lemma FirstIsDispatchers(outgoing: seq<Report>, k: nat, n: nat)
    requires WellAnnounced(outgoing) && k < |outgoing| && outgoing[k].order.arrival == n
    requires forall i :: 0 <= i < k ==> outgoing[i].order.arrival != n
    ensures outgoing[k].IsAnnouncement()
  {
  }

  lemma EventsPrefix(some: seq<Report>, all: seq<Report>)
    requires some <= all
    ensures AsEvents(some) == AsEvents(all)[..|some|]
  {
  }

  lemma StoryOfPrefix(life: seq<Event>, stream: seq<Report>)
    requires life != [] && stream != [] && |stream| <= |life| && life[0] == Entered(stream[0].order)
    requires AsEvents(stream[1..]) == life[1..][..|stream| - 1]
    ensures Story(stream) == life[..|stream|]
  {
  }

  lemma StoryIsPrefix(life: seq<Event>, stream: seq<Report>)
    requires LifeOk(life) && life != [] && stream != [] && life[0] == Entered(stream[0].order)
    requires stream[1..] <= SentReports(life)
    ensures LifeOk(Story(stream))
  {
    LifeKeepsIdentity(life);
    ReportsOfLife(life);
    EventsPrefix(stream[1..], SentReports(life));
    StoryOfPrefix(life, stream);
    LifePrefix(life, |stream|);
  }
}
