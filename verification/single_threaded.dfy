/** The SINGLE_THREADED mode: each message is carried out completely before the next.  There an unfound cancel
    calls itself for ever, so the mode is defined on the message sequences whose cancels all find their order. */
module SingleThreaded {
  import opened Filters
  import opened Books
  import opened Matching
  import opened SymbolRuns
  import opened TradingSystem
  import opened SystemSafety
  import opened ReportStreams

  datatype Single = Single(books: map<string, Book>, outgoing: seq<Report>)

  function CancelOf(m: Message): Task
    requires m.CancelMessage?
  {
    CancelTask(m.owner, m.symbol, m.side, m.origID)
  }

  function SingleStep(z: Single, m: Message, n: nat): Single
    requires m.CancelMessage? ==> !Unfound(z.books, CancelOf(m))
  {
    match m
    case NewMessage(order) =>
      var o := Stamp(order, n);
      if o.symbol in z.books
      then Single(BooksAfter(z.books, NewTask(o)),
                  z.outgoing + [Accepted(o)] + SentReports(Executed(z.books, NewTask(o)).log))
      else z.(outgoing := z.outgoing + [Rejected(o)])
    case CancelMessage(_, _, _, _) =>
      Single(BooksAfter(z.books, CancelOf(m)), z.outgoing + SentReports(Executed(z.books, CancelOf(m)).log))
  }

  /** Executed one at a time, every cancel finds its order. */
  predicate CancelsFind(names: seq<string>, ms: seq<Message>)
    decreases |ms|, 0
  {
    ms == []
    || (&& CancelsFind(names, ms[..|ms| - 1])
        && (ms[|ms| - 1].CancelMessage? ==> !Unfound(SingleRun(names, ms[..|ms| - 1]).books, CancelOf(ms[|ms| - 1]))))
  }

  function SingleRun(names: seq<string>, ms: seq<Message>): Single
    requires CancelsFind(names, ms)
    decreases |ms|, 1
  {
    if ms == [] then Single(InitialBooks(names), [])
    else SingleStep(SingleRun(names, ms[..|ms| - 1]), ms[|ms| - 1], |ms| - 1)
  }

  lemma {:induction false} CancelsFindPrefix(names: seq<string>, ms: seq<Message>, k: nat)
    requires CancelsFind(names, ms) && k <= |ms|
    ensures CancelsFind(names, ms[..k])
  {
    if k == |ms| {
      assert ms[..k] == ms;
    } else {
      CancelsFindPrefix(names, ms[..|ms| - 1], k);
      assert ms[..|ms| - 1][..k] == ms[..k];
    }
  }

  // ---------------------------------------------------------------- its tasks and announcements

  function TaskFrom(names: seq<string>, m: Message, n: nat): seq<Task> {
    match m
    case NewMessage(order) => if order.symbol in names then [NewTask(Stamp(order, n))] else []
    case CancelMessage(_, _, _, _) => [CancelOf(m)]
  }

  function AnnouncementOf(names: seq<string>, m: Message, n: nat): seq<Report> {
    match m
    case NewMessage(order) =>
      [if order.symbol in names then Accepted(Stamp(order, n)) else Rejected(Stamp(order, n))]
    case CancelMessage(_, _, _, _) => []
  }

  function TasksFrom(names: seq<string>, ms: seq<Message>): seq<Task> {
    if ms == [] then [] else TasksFrom(names, ms[..|ms| - 1]) + TaskFrom(names, ms[|ms| - 1], |ms| - 1)
  }

  function Announcements(names: seq<string>, ms: seq<Message>): seq<Report> {
    if ms == [] then [] else Announcements(names, ms[..|ms| - 1]) + AnnouncementOf(names, ms[|ms| - 1], |ms| - 1)
  }

  lemma TasksFromSnoc(names: seq<string>, ms: seq<Message>, m: Message)
    ensures TasksFrom(names, ms + [m]) == TasksFrom(names, ms) + TaskFrom(names, m, |ms|)
    ensures Announcements(names, ms + [m]) == Announcements(names, ms) + AnnouncementOf(names, m, |ms|)
  {
    assert (ms + [m])[..|ms|] == ms;
  }

  /** Which message became task `i`. */
  lemma {:induction false} TaskCameFrom(names: seq<string>, ms: seq<Message>, i: nat) returns (k: nat)
    requires i < |TasksFrom(names, ms)|
    ensures k < |ms| && TaskFrom(names, ms[k], k) == [TasksFrom(names, ms)[i]]
    ensures TasksFrom(names, ms[..k]) == TasksFrom(names, ms)[..i]
  {
    var init := ms[..|ms| - 1];
    if i < |TasksFrom(names, init)| {
      k := TaskCameFrom(names, init, i);
      assert init[..k] == ms[..k];
    } else {
      k := |ms| - 1;
    }
  }

  /** Which message became the next task of `s` after `before`. */
  lemma NextTaskCameFrom(names: seq<string>, ms: seq<Message>, s: string, before: seq<Task>, t: Task, after: seq<Task>)
    returns (k: nat)
    requires TasksOf(TasksFrom(names, ms), s) == before + [t] + after
    ensures k < |ms| && TaskFrom(names, ms[k], k) == [t] && TasksOf(TasksFrom(names, ms[..k]), s) == before
  {
    var i := FilterSplit(TasksFrom(names, ms), For(s), before, t, after);
    k := TaskCameFrom(names, ms, i);
  }

  // ---------------------------------------------------------------- it is made of per-symbol histories

  lemma FoundIsKnown(books: map<string, Book>, t: Task)
    requires t.CancelTask? && !Unfound(books, t)
    ensures t.Symbol() in books
  {
  }

  lemma {:induction false} SingleKeepsBooks(names: seq<string>, ms: seq<Message>, s: string)
    requires CancelsFind(names, ms)
    ensures s in SingleRun(names, ms).books <==> s in names
  {
    if ms != [] {
      var m, before := ms[|ms| - 1], SingleRun(names, ms[..|ms| - 1]);
      SingleKeepsBooks(names, ms[..|ms| - 1], s);
      if m.CancelMessage? {
        FoundIsKnown(before.books, CancelOf(m));
      }
    }
  }

  function FromDispatcher(): Report -> bool { (r: Report) => r.IsAnnouncement() }

  /** Books and reports are those of the per-symbol histories of `ts`, and the announcements are `announced`. */
  ghost predicate MadeOf(z: Single, ts: seq<Task>, announced: seq<Report>) {
    && (forall s :: BookIs(z.books, ts, s))
    && (forall s :: Filter(z.outgoing, FromWorker(s)) == SentReports(Run(TasksOf(ts, s)).log))
    && Filter(z.outgoing, FromDispatcher()) == announced
  }

  lemma ExecutedReports(books: map<string, Book>, outgoing: seq<Report>, ts: seq<Task>, t: Task, s: string)
    requires BookIs(books, ts, s) && BookIs(books, ts, t.Symbol())
    requires Filter(outgoing, FromWorker(s)) == SentReports(Run(TasksOf(ts, s)).log)
    ensures Filter(outgoing + SentReports(Executed(books, t).log), FromWorker(s))
         == SentReports(Run(TasksOf(ts + [t], s)).log)
  {
    var more := SentReports(Executed(books, t).log);
    FilterAppend(outgoing, more, FromWorker(s));
    HistoryReports(books, ts, t, s);
    NewReports(books, ts, t);
    if t.Symbol() == s {
      FilterAll(more, FromWorker(s));
    } else {
      FilterNone(more, FromWorker(s));
    }
  }

  lemma ExecutedAnnouncesNothing(books: map<string, Book>, outgoing: seq<Report>, ts: seq<Task>, t: Task)
    requires BookIs(books, ts, t.Symbol())
    ensures Filter(outgoing + SentReports(Executed(books, t).log), FromDispatcher())
        == Filter(outgoing, FromDispatcher())
  {
    var more := SentReports(Executed(books, t).log);
    FilterAppend(outgoing, more, FromDispatcher());
    NewReports(books, ts, t);
    forall r | r in more ensures !FromDispatcher()(r) {
      assert FromWorker(t.Symbol())(r);
    }
    FilterNone(more, FromDispatcher());
  }

  lemma ExecutedIsMadeOf(z: Single, ts: seq<Task>, announced: seq<Report>, t: Task)
    requires MadeOf(z, ts, announced)
    ensures MadeOf(Single(BooksAfter(z.books, t), z.outgoing + SentReports(Executed(z.books, t).log)),
                   ts + [t], announced)
  {
    assert BookIs(z.books, ts, t.Symbol());
    forall s ensures BookIs(BooksAfter(z.books, t), ts + [t], s) {
      assert BookIs(z.books, ts, s);
      ExecuteKeepsBook(z.books, ts, t, s);
    }
    forall s ensures Filter(z.outgoing + SentReports(Executed(z.books, t).log), FromWorker(s))
                  == SentReports(Run(TasksOf(ts + [t], s)).log) {
      assert BookIs(z.books, ts, s);
      ExecutedReports(z.books, z.outgoing, ts, t, s);
    }
    ExecutedAnnouncesNothing(z.books, z.outgoing, ts, t);
  }

  lemma AnnouncedIsMadeOf(z: Single, ts: seq<Task>, announced: seq<Report>, r: Report)
    requires MadeOf(z, ts, announced) && FromDispatcher()(r)
    ensures MadeOf(z.(outgoing := z.outgoing + [r]), ts, announced + [r])
  {
    forall s ensures Filter(z.outgoing + [r], FromWorker(s)) == SentReports(Run(TasksOf(ts, s)).log) {
      FilterSnoc(z.outgoing, r, FromWorker(s));
    }
    FilterSnoc(z.outgoing, r, FromDispatcher());
  }

  lemma StepIsMadeOf(names: seq<string>, z: Single, ts: seq<Task>, announced: seq<Report>, m: Message, n: nat)
    requires MadeOf(z, ts, announced)
    requires m.CancelMessage? ==> !Unfound(z.books, CancelOf(m))
    requires m.NewMessage? ==> (m.order.symbol in z.books <==> m.order.symbol in names)
    ensures MadeOf(SingleStep(z, m, n), ts + TaskFrom(names, m, n), announced + AnnouncementOf(names, m, n))
  {
    if m.CancelMessage? {
      ExecutedIsMadeOf(z, ts, announced, CancelOf(m));
      assert announced + [] == announced;
    } else {
      var o := Stamp(m.order, n);
      if o.symbol in names {
        AnnouncedIsMadeOf(z, ts, announced, Accepted(o));
        ExecutedIsMadeOf(z.(outgoing := z.outgoing + [Accepted(o)]), ts, announced + [Accepted(o)], NewTask(o));
      } else {
        AnnouncedIsMadeOf(z, ts, announced, Rejected(o));
        assert ts + [] == ts;
      }
    }
  }

  lemma NothingIsMadeOf(names: seq<string>)
    ensures MadeOf(Single(InitialBooks(names), []), [], [])
  {
    forall s ensures BookIs(InitialBooks(names), [], s) && SentReports(Run(TasksOf([], s)).log) == [] {
      assert TasksOf([], s) == [] && Run([]) == START;
    }
  }

  /** The single-threaded mode does to each symbol what that symbol's own tasks do, in message order. */
  lemma {:induction false} SingleIsMadeOfHistories(names: seq<string>, ms: seq<Message>)
    requires CancelsFind(names, ms)
    ensures MadeOf(SingleRun(names, ms), TasksFrom(names, ms), Announcements(names, ms))
  {
    if ms == [] {
      NothingIsMadeOf(names);
    } else {
      var init, m := ms[..|ms| - 1], ms[|ms| - 1];
      SingleIsMadeOfHistories(names, init);
      if m.NewMessage? {
        SingleKeepsBooks(names, init, m.order.symbol);
      }
      StepIsMadeOf(names, SingleRun(names, init), TasksFrom(names, init), Announcements(names, init), m, |ms| - 1);
    }
  }
}
