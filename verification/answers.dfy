/** Every order taken up is answered, with the dispatcher's own decision on that very order, and nothing else is. */
module Answers {
  import opened Options
  import opened Filters
  import opened Orders
  import opened Matching
  import opened SymbolRuns
  import opened TradingSystem
  import opened OrderFlow
  import opened SystemSafety
  import opened ClientStreams
  import opened Provenance

  predicate IsNew(y: System, n: int) { 0 <= n < |y.pushed| && y.pushed[n].NewMessage? }

  /** Order `n` as the dispatcher stamped it, and the answer to it: accepted exactly when its task was submitted. */
  function Stamped(y: System, n: nat): FreshOrder
    requires IsNew(y, n)
  {
    Stamp(y.pushed[n].order, n)
  }

  function Answer(y: System, n: nat): Report
    requires IsNew(y, n)
  {
    if NewTask(Stamped(y, n)) in y.accepted then Accepted(Stamped(y, n)) else Rejected(Stamped(y, n))
  }

  predicate IsAnswer(y: System, r: Report) { IsNew(y, r.order.arrival) && r == Answer(y, r.order.arrival) }

  ghost predicate Answered(y: System) {
    && (forall n :: 0 <= n < Bound(y) && IsNew(y, n) ==> Answer(y, n) in y.outgoing)
    && (forall r :: r in y.outgoing && r.IsAnnouncement() ==> IsAnswer(y, r))
    && (y.dispatcher.Announcing? ==> IsAnswer(y, y.dispatcher.report))
  }

  // ---------------------------------------------------------------- every step keeps it

  /** Later messages and later decisions leave the answers to earlier orders alone. */
  lemma AnswerStays(y: System, y': System, n: nat)
    requires IsNew(y, n) && y.pushed <= y'.pushed && y.accepted <= y'.accepted
    requires forall t :: t in y'.accepted && t.NewTask? && t.order.arrival == n ==> t in y.accepted
    ensures IsNew(y', n) && Answer(y', n) == Answer(y, n)
  {
    assert forall t :: t in y.accepted ==> t in y'.accepted;
  }

  lemma QuietKeepsAnswered(y: System, y': System)
    requires Answered(y) && y'.outgoing == y.outgoing && y.pushed <= y'.pushed && y'.accepted == y.accepted
    requires Bound(y') == Bound(y) <= |y.pushed|
    requires y'.dispatcher.Announcing? ==> y'.dispatcher == y.dispatcher
    ensures Answered(y')
  {
    forall n: nat | IsNew(y, n) ensures IsNew(y', n) && Answer(y', n) == Answer(y, n) {
      AnswerStays(y, y', n);
    }
  }

  /** A worker's report is no announcement. */
  lemma MoreReportsKeepAnswered(y: System, y': System)
    requires Answered(y) && y'.pushed == y.pushed && y'.accepted == y.accepted
    requires y'.dispatcher == y.dispatcher && y'.dispatched == y.dispatched
    requires forall r :: r in y.outgoing ==> r in y'.outgoing
    requires forall r :: r in y'.outgoing && r.IsAnnouncement() ==> r in y.outgoing
    ensures Answered(y')
  {
    forall n: nat | IsNew(y, n) ensures IsNew(y', n) && Answer(y', n) == Answer(y, n) {
      AnswerStays(y, y', n);
    }
  }

  lemma SendKeepsAnswered(y: System, q: nat)
    requires Answered(y) && WorkersReport(y) && q < |y.workers| && y.workers[q].Reporting?
    ensures Answered(SendOn(y, q))
  {
    var unsent := y.workers[q].unsent;
    assert unsent != [] ==> FromWorker(unsent[0].order.symbol)(unsent[0]);
    MoreReportsKeepAnswered(y, SendOn(y, q));
  }

  lemma AnnounceKeepsAnswered(y: System)
    requires Answered(y) && Numbered(y) && y.dispatcher.Announcing?
    ensures Answered(AnnounceOne(y))
  {
    var y', r := AnnounceOne(y), y.dispatcher.report;
    assert y'.outgoing[|y.outgoing|] == r;
    assert forall x :: x in y.outgoing ==> x in y'.outgoing;
    assert forall n: nat :: IsNew(y, n) ==> Answer(y', n) == Answer(y, n);
  }

  lemma DispatchAnswers(y: System)
    requires MessagesKept(y) && Numbered(y) && Enabled(y, Dispatch)
    ensures DispatchOne(y).dispatcher.Announcing? <==> IsNew(y, y.dispatched)
    ensures DispatchOne(y).dispatcher.Announcing? ==> IsAnswer(DispatchOne(y), DispatchOne(y).dispatcher.report)
  {
    var y' := DispatchOne(y);
    assert y.pushed[y.dispatched..][0] == y.batch[0];
    if y.batch[0].NewMessage? {
      var t := NewTask(Stamped(y, y.dispatched));
      assert t !in y.accepted;
      assert y'.dispatcher.next == Some(t) ==> y'.accepted[|y.accepted|] == t;
    }
  }

  lemma EarlierAnswersStay(y: System, n: nat)
    requires Enabled(y, Dispatch) && n < y.dispatched && IsNew(y, n)
    ensures IsNew(DispatchOne(y), n) && Answer(DispatchOne(y), n) == Answer(y, n)
  {
    AnswerStays(y, DispatchOne(y), n);
  }

  lemma DispatchKeepsAnswered(y: System)
    requires Answered(y) && Announced(y) && MessagesKept(y) && Numbered(y) && Enabled(y, Dispatch)
    ensures Answered(DispatchOne(y))
  {
    var y' := DispatchOne(y);
    DispatchAnswers(y);
    assert y'.outgoing == y.outgoing && Bound(y) == y.dispatched;
    forall n: nat | n < y.dispatched && IsNew(y, n) ensures IsNew(y', n) && Answer(y', n) == Answer(y, n) {
      EarlierAnswersStay(y, n);
    }
    forall n | 0 <= n < Bound(y') && IsNew(y', n) ensures Answer(y', n) in y'.outgoing {
      assert IsNew(y, n) && Answer(y, n) in y.outgoing;
    }
  }

  lemma StepKeepsAnswered(names: seq<string>, y: System, step: Step)
    requires SystemInvariant(names, y) && Answered(y) && Enabled(y, step)
    ensures Answered(Perform(y, step))
  {
    match step {
      case Dispatch => DispatchKeepsAnswered(y);
      case Announce => AnnounceKeepsAnswered(y);
      case SendReport(q) => SendKeepsAnswered(y, q);
      case _ => QuietKeepsAnswered(y, Perform(y, step));
    }
  }

  lemma {:induction false} EveryRunAnswers(names: seq<string>, steps: seq<Step>)
    requires names != []
    ensures Answered(After(names, steps))
  {
    if steps != [] {
      var before, step := After(names, steps[..|steps| - 1]), steps[|steps| - 1];
      EveryRunAnswers(names, steps[..|steps| - 1]);
      EveryRunIsSafe(names, steps[..|steps| - 1]);
      if Enabled(before, step) {
        StepKeepsAnswered(names, before, step);
      }
    }
  }

  // ---------------------------------------------------------------- the theorem

  lemma FirstReportIsAnswer(y: System, n: nat)
    requires Answered(y) && Announced(y) && StreamOf(y.outgoing, n) != []
    ensures n < Bound(y) && IsNew(y, n) && StreamOf(y.outgoing, n)[0] == Answer(y, n)
  {
    var k := FilterFirst(y.outgoing, ByArrival(n));
    assert forall i :: 0 <= i < k ==> !ByArrival(n)(y.outgoing[i]);
    FirstIsDispatchers(y.outgoing, k, n);
    assert y.outgoing[k] in y.outgoing;
  }

  /** Accepted exactly if a task with that number was submitted, and the task is then that very order. */
  lemma AnswerInFields(names: seq<string>, steps: seq<Step>, n: nat)
    requires IsNew(After(names, steps), n)
    ensures var y := After(names, steps); var r := Answer(y, n);
            && r.order.arrival == n && SameButArrival(r.order, y.pushed[n].order)
            && r.kind == if exists t :: t in y.accepted && t.NewTask? && t.order.arrival == n then ACCEPTED
                         else REJECTED
  {
    var y := After(names, steps);
    if t :| t in y.accepted && t.NewTask? && t.order.arrival == n {
      EveryTaskIsTheClients(names, steps, t);
      assert t == NewTask(Stamped(y, n));
    }
  }

  /** Under every interleaving: an order that has been taken up and announced has a stream, which begins with the answer
      to that very order, as it was pushed: ACCEPTED exactly if a task with its number was submitted, else REJECTED;
      every other number has no report at all. */
  lemma EveryOrderIsAnswered(names: seq<string>, steps: seq<Step>, n: nat)
    requires names != []
    ensures var y := After(names, steps); var stream := StreamOf(y.outgoing, n);
            && (stream != [] <==> n < Bound(y) && IsNew(y, n))
            && (stream != [] ==>
                  && stream[0] == Answer(y, n)
                  && stream[0].order.arrival == n && SameButArrival(stream[0].order, y.pushed[n].order)
                  && stream[0].kind == (if exists t :: t in y.accepted && t.NewTask? && t.order.arrival == n
                                        then ACCEPTED else REJECTED))
  {
    var y := After(names, steps);
    EveryRunIsSafe(names, steps);
    EveryRunAnswers(names, steps);
    FilterMembers(y.outgoing, ByArrival(n));
    if n < Bound(y) && IsNew(y, n) {
      assert ByArrival(n)(Answer(y, n));
    }
    if StreamOf(y.outgoing, n) != [] {
      FirstReportIsAnswer(y, n);
      AnswerInFields(names, steps, n);
    }
  }
}
