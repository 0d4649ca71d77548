/** The bounded ring of many producers and many consumers: a mutex and two condition variables.  One step per critical
    section (a sleeping thread gives the mutex up within it), per notification, and per spurious wake-up. */
module BoundedRings {
  import opened Options
  import opened RingArithmetic
  import opened Sequences

  /** Where a thread is.  `Ready` wants the mutex for the first time, `Woken` wants it back, `Notifying` has left its
      critical section and owes the other side a notification. */
  datatype Local<T> =
    | Outside
    | PushReady(data: T) | PushSleeping(data: T) | PushWoken(data: T) | PushNotifying
    | PopReady | PopSleeping | PopWoken | PopNotifying(result: T)

  datatype Ring<T> = Ring(
    buffer: seq<T>, front: nat, rear: nat, count: nat,
    threads: map<nat, Local<T>>,
    // history
    pushed: seq<T>,
    popped: seq<T>)

  /** `Notify(t, u)`: thread t's notify_one wakes u; when nobody sleeps on that condition, it wakes nobody. */
  datatype Step<T> =
    | CallPush(t: nat, data: T) | CallPop(t: nat) | Enter(t: nat) | Notify(t: nat, u: nat) | Spurious(t: nat)

  function Empty<T>(buffer: seq<T>): Ring<T> { Ring(buffer, 0, 0, 0, map[], [], []) }

  function At<T>(s: Ring<T>, t: nat): Local<T> { if t in s.threads then s.threads[t] else Outside }

  function Put<T>(s: Ring<T>, t: nat, l: Local<T>): Ring<T> { s.(threads := s.threads[t := l]) }

  /** push between acquiring the mutex and giving it up. */
  function PushSection<T>(s: Ring<T>, t: nat, data: T): Ring<T> {
    if s.count == |s.buffer| || s.rear >= |s.buffer| then Put(s, t, PushSleeping(data))
    else Put(s, t, PushNotifying).(buffer := s.buffer[s.rear := data], rear := Increment(s.rear, |s.buffer|),
                                   count := s.count + 1, pushed := s.pushed + [data])
  }

  function PopSection<T>(s: Ring<T>, t: nat): Ring<T> {
    if s.count == 0 || s.front >= |s.buffer| then Put(s, t, PopSleeping)
    else Put(s, t, PopNotifying(s.buffer[s.front])).(front := Increment(s.front, |s.buffer|),
                                                     count := s.count - 1, popped := s.popped + [s.buffer[s.front]])
  }

  function Woken<T>(l: Local<T>): Local<T> {
    match l
    case PushSleeping(data) => PushWoken(data)
    case PopSleeping => PopWoken
    case _ => l
  }

  predicate AnySleeping<T>(threads: map<nat, Local<T>>, pop: bool) {
    exists t :: t in threads && (if pop then threads[t].PopSleeping? else threads[t].PushSleeping?)
  }

  /** A step that cannot be taken leaves the state alone, so any sequence of steps is a run. */
  function Apply<T>(s: Ring<T>, step: Step<T>): Ring<T> {
    match step
    case CallPush(t, data) => if At(s, t).Outside? then Put(s, t, PushReady(data)) else s
    case CallPop(t) => if At(s, t).Outside? then Put(s, t, PopReady) else s
    case Enter(t) => (
      match At(s, t)
      case PushReady(data) => PushSection(s, t, data)
      case PushWoken(data) => PushSection(s, t, data)
      case PopReady => PopSection(s, t)
      case PopWoken => PopSection(s, t)
      case _ => s)
    case Notify(t, u) =>
      if At(s, t).PushNotifying? && At(s, u).PopSleeping? then Put(Put(s, t, Outside), u, PopWoken)
      else if At(s, t).PopNotifying? && At(s, u).PushSleeping? then Put(Put(s, t, Outside), u, PushWoken(At(s, u).data))
      else if At(s, t).PushNotifying? && !AnySleeping(s.threads, true) then Put(s, t, Outside)
      else if At(s, t).PopNotifying? && !AnySleeping(s.threads, false) then Put(s, t, Outside)
      else s
    case Spurious(t) => if t in s.threads then Put(s, t, Woken(At(s, t))) else s
  }

  function Run<T>(s: Ring<T>, steps: seq<Step<T>>): Ring<T> {
    if steps == [] then s else Apply(Run(s, steps[..|steps| - 1]), steps[|steps| - 1])
  }

  // ---------------------------------------------------------------- counting threads

  datatype Role =
    | SleepingConsumer | WokenConsumer | NotifyingConsumers
    | SleepingProducer | WokenProducer | NotifyingProducers

  predicate Plays<T>(l: Local<T>, role: Role) {
    match role
    case SleepingConsumer => l.PopSleeping?
    case WokenConsumer => l.PopWoken?
    case NotifyingConsumers => l.PushNotifying?
    case SleepingProducer => l.PushSleeping?
    case WokenProducer => l.PushWoken?
    case NotifyingProducers => l.PopNotifying?
  }

  function Who<T>(threads: map<nat, Local<T>>, role: Role): set<nat> {
    set t | t in threads && Plays(threads[t], role)
  }

  /** How many threads play `role`. */
  function Number<T>(threads: map<nat, Local<T>>, role: Role): nat { |Who(threads, role)| }

  function One(b: bool): nat { if b then 1 else 0 }

  lemma SizeWithout(x: set<nat>, t: nat)
    ensures |x| == |x - {t}| + One(t in x)
  {
    if t in x {
      assert x == (x - {t}) + {t};
    } else {
      assert x == x - {t};
    }
  }

  lemma SameButOne<T>(m: map<nat, Local<T>>, m': map<nat, Local<T>>, t: nat, role: Role)
    requires forall u :: u != t ==> (u in m <==> u in m') && (u in m ==> m[u] == m'[u])
    ensures Who(m, role) - {t} == Who(m', role) - {t}
  {
    forall u ensures u in Who(m, role) - {t} <==> u in Who(m', role) - {t} {
    }
  }

  lemma NumberAfter<T>(s: Ring<T>, t: nat, l: Local<T>, role: Role)
    ensures Number(s.threads[t := l], role) + One(Plays(At(s, t), role))
        == Number(s.threads, role) + One(Plays(l, role))
  {
    var m, m' := s.threads, s.threads[t := l];
    SameButOne(m, m', t, role);
    SizeWithout(Who(m, role), t);
    SizeWithout(Who(m', role), t);
    assert t in m' && m'[t] == l;
    assert Plays(At(s, t), role) <==> t in Who(m, role);
  }

  lemma NumberZero<T>(threads: map<nat, Local<T>>, role: Role)
    ensures Number(threads, role) == 0 <==> forall t :: t in threads ==> !Plays(threads[t], role)
  {
    if t :| t in threads && Plays(threads[t], role) {
      assert t in Who(threads, role);
    } else {
      assert Who(threads, role) == {};
    }
  }

  // ---------------------------------------------------------------- the invariant

  ghost predicate Stored<T>(s: Ring<T>) {
    var capacity := |s.buffer|;
    && capacity > 0
    && s.popped <= s.pushed && s.count == |s.pushed| - |s.popped| <= capacity
    && s.front == |s.popped| % capacity && s.rear == |s.pushed| % capacity
    && forall i :: |s.popped| <= i < |s.pushed| ==> s.buffer[i % capacity] == s.pushed[i]
  }

  /** No wake-up is lost: while a consumer sleeps, every stored item has a woken consumer or a notification under
      way. */
  ghost predicate ConsumersServed<T>(s: Ring<T>) {
    Number(s.threads, SleepingConsumer) > 0 ==>
      s.count <= Number(s.threads, WokenConsumer) + Number(s.threads, NotifyingConsumers)
  }

  /** While a producer sleeps, every free slot has a woken producer or a notification under way. */
  ghost predicate ProducersServed<T>(s: Ring<T>) {
    Number(s.threads, SleepingProducer) > 0 ==>
      |s.buffer| - s.count <= Number(s.threads, WokenProducer) + Number(s.threads, NotifyingProducers)
  }

  ghost predicate Inv<T>(s: Ring<T>) { Stored(s) && ConsumersServed(s) && ProducersServed(s) }

  /** All six numbers after one thread's state changed. */
  lemma NumbersAfter<T>(s: Ring<T>, t: nat, l: Local<T>)
    ensures forall role :: Number(s.threads[t := l], role) + One(Plays(At(s, t), role))
                        == Number(s.threads, role) + One(Plays(l, role))
  {
    forall role
      ensures Number(s.threads[t := l], role) + One(Plays(At(s, t), role))
          == Number(s.threads, role) + One(Plays(l, role))
    {
      NumberAfter(s, t, l, role);
    }
  }

  lemma PushStored<T>(s: Ring<T>, t: nat, data: T)
    requires Stored(s)
    ensures Stored(PushSection(s, t, data))
    ensures s.rear < |s.buffer| && s.front < |s.buffer|
  {
    var capacity := |s.buffer|;
    ModNext(|s.pushed|, capacity);
    if s.count < capacity {
      forall i | |s.popped| <= i < |s.pushed| ensures i % capacity != s.rear {
        if i % capacity == s.rear {
          ModDistinct(i, |s.pushed|, capacity);
        }
      }
    }
  }

  lemma PopStored<T>(s: Ring<T>, t: nat)
    requires Stored(s)
    ensures Stored(PopSection(s, t))
    ensures s.count > 0 ==> s.front < |s.buffer| && s.buffer[s.front] == s.pushed[|s.popped|]
  {
    ModNext(|s.popped|, |s.buffer|);
  }

  lemma PushKeepsInv<T>(s: Ring<T>, t: nat, data: T)
    requires Inv(s) && (At(s, t) == PushReady(data) || At(s, t) == PushWoken(data))
    ensures Inv(PushSection(s, t, data))
  {
    PushStored(s, t, data);
    NumbersAfter(s, t, PushSleeping(data));
    NumbersAfter(s, t, PushNotifying);
  }

  lemma PopKeepsInv<T>(s: Ring<T>, t: nat)
    requires Inv(s) && (At(s, t).PopReady? || At(s, t).PopWoken?)
    ensures Inv(PopSection(s, t))
  {
    PopStored(s, t);
    NumbersAfter(s, t, PopSleeping);
    NumbersAfter(s, t, PopNotifying(s.buffer[s.front]));
  }

  /** A thread outside the critical sections moves on. */
  lemma MoveKeepsInv<T>(s: Ring<T>, t: nat, l: Local<T>)
    requires Inv(s)
    requires (At(s, t).Outside? && (l.PushReady? || l.PopReady?)) || l == Woken(At(s, t))
    ensures Inv(Put(s, t, l))
  {
    NumbersAfter(s, t, l);
  }

  lemma NotifyKeepsInv<T>(s: Ring<T>, t: nat, u: nat)
    requires Inv(s)
    ensures Inv(Apply(s, Notify(t, u)))
  {
    NumbersAfter(s, t, Outside);
    NumberZero(s.threads, SleepingConsumer);
    NumberZero(s.threads, SleepingProducer);
    var y := Put(s, t, Outside);
    if At(s, t).PushNotifying? && At(s, u).PopSleeping? {
      NumbersAfter(y, u, PopWoken);
    } else if At(s, t).PopNotifying? && At(s, u).PushSleeping? {
      NumbersAfter(y, u, PushWoken(At(s, u).data));
    }
  }

  lemma StepKeepsInv<T>(s: Ring<T>, step: Step<T>)
    requires Inv(s)
    ensures Inv(Apply(s, step))
  {
    match step
    case CallPush(t, data) =>
      if At(s, t).Outside? {
        MoveKeepsInv(s, t, PushReady(data));
      }
    case CallPop(t) =>
      if At(s, t).Outside? {
        MoveKeepsInv(s, t, PopReady);
      }
    case Enter(t) =>
      match At(s, t) {
        case PushReady(data) => PushKeepsInv(s, t, data);
        case PushWoken(data) => PushKeepsInv(s, t, data);
        case PopReady => PopKeepsInv(s, t);
        case PopWoken => PopKeepsInv(s, t);
        case _ =>
      }
    case Notify(t, u) => NotifyKeepsInv(s, t, u);
    case Spurious(t) => MoveKeepsInv(s, t, Woken(At(s, t)));
  }

  lemma {:induction false} RunKeepsInv<T>(buffer: seq<T>, steps: seq<Step<T>>)
    requires |buffer| > 0
    ensures Inv(Run(Empty(buffer), steps)) && |Run(Empty(buffer), steps).buffer| == |buffer|
  {
    if steps == [] {
      NumberZero<T>(map[], SleepingConsumer);
      NumberZero<T>(map[], SleepingProducer);
      assert 0 % |buffer| == 0;
    } else {
      RunKeepsInv(buffer, steps[..|steps| - 1]);
      StepKeepsInv(Run(Empty(buffer), steps[..|steps| - 1]), steps[|steps| - 1]);
    }
  }

  // ---------------------------------------------------------------- the theorems

  /** In every interleaving, what was popped is a prefix of what was pushed, at most `capacity` values are stored, and
      each stored value is in its slot. */
  lemma EveryRunIsFifo<T>(buffer: seq<T>, steps: seq<Step<T>>)
    requires |buffer| > 0
    ensures var s := Run(Empty(buffer), steps);
            && s.popped <= s.pushed && s.count == |s.pushed| - |s.popped| <= |buffer| == |s.buffer|
            && forall i :: |s.popped| <= i < |s.pushed| ==> s.buffer[i % |buffer|] == s.pushed[i]
  {
    RunKeepsInv(buffer, steps);
  }

  /** The abstract queue. */
  function Contents<T>(s: Ring<T>): seq<T> { if |s.popped| <= |s.pushed| then s.pushed[|s.popped|..] else [] }

  /** A producer's critical section appends its value, or puts it to sleep exactly when the queue is full. */
  ghost predicate Appends<T>(s: Ring<T>, r: Ring<T>, t: nat, data: T) {
    if |Contents(s)| == |s.buffer| then Contents(r) == Contents(s) && At(r, t) == PushSleeping(data)
    else Contents(r) == Contents(s) + [data] && At(r, t) == PushNotifying
  }

  /** A consumer's removes the front as its result, or puts it to sleep exactly when the queue is empty. */
  ghost predicate Removes<T>(s: Ring<T>, r: Ring<T>, t: nat) {
    if Contents(s) == [] then Contents(r) == [] && At(r, t) == PopSleeping
    else At(r, t) == PopNotifying(Contents(s)[0]) && Contents(s) == [Contents(s)[0]] + Contents(r)
  }

  lemma PushRefines<T>(s: Ring<T>, t: nat, data: T)
    requires Stored(s)
    ensures Appends(s, PushSection(s, t, data), t, data)
  {
    PushStored(s, t, data);
    AppendBeyond(s.pushed, data, |s.popped|);
  }

  lemma PopRefines<T>(s: Ring<T>, t: nat)
    requires Stored(s)
    ensures Removes(s, PopSection(s, t), t)
  {
    PopStored(s, t);
    if s.count > 0 {
      DropFirst(s.pushed, |s.popped|);
    }
  }

  predicate WantsPush<T>(l: Local<T>) { l.PushReady? || l.PushWoken? }

  predicate WantsPop<T>(l: Local<T>) { l.PopReady? || l.PopWoken? }

  lemma OthersKeepContents<T>(s: Ring<T>, step: Step<T>)
    requires step.Enter? ==> !WantsPush(At(s, step.t)) && !WantsPop(At(s, step.t))
    ensures Contents(Apply(s, step)) == Contents(s)
  {
  }

  /** Every step of every interleaving is a step of the abstract queue. */
  lemma StepsRefineFifo<T>(buffer: seq<T>, steps: seq<Step<T>>, step: Step<T>)
    requires |buffer| > 0
    ensures var s := Run(Empty(buffer), steps); var r := Apply(s, step);
            if step.Enter? && WantsPush(At(s, step.t)) then Appends(s, r, step.t, At(s, step.t).data)
            else if step.Enter? && WantsPop(At(s, step.t)) then Removes(s, r, step.t)
            else Contents(r) == Contents(s)
  {
    RunKeepsInv(buffer, steps);
    var s := Run(Empty(buffer), steps);
    if step.Enter? && WantsPush(At(s, step.t)) {
      PushRefines(s, step.t, At(s, step.t).data);
    } else if step.Enter? && WantsPop(At(s, step.t)) {
      PopRefines(s, step.t);
    } else {
      OthersKeepContents(s, step);
    }
  }

  /** No lost wake-up, spurious wake-ups and barging included. */
  lemma NoWakeUpIsLost<T>(buffer: seq<T>, steps: seq<Step<T>>)
    requires |buffer| > 0
    ensures var s := Run(Empty(buffer), steps);
            && (AnySleeping(s.threads, true) ==>
                  s.count <= Number(s.threads, WokenConsumer) + Number(s.threads, NotifyingConsumers))
            && (AnySleeping(s.threads, false) ==>
                  |buffer| - s.count <= Number(s.threads, WokenProducer) + Number(s.threads, NotifyingProducers))
  {
    RunKeepsInv(buffer, steps);
    var s := Run(Empty(buffer), steps);
    NumberZero(s.threads, SleepingConsumer);
    NumberZero(s.threads, SleepingProducer);
  }

  /** Nobody is on the way: every thread is outside or asleep. */
  predicate Stuck<T>(s: Ring<T>) {
    forall t :: t in s.threads ==> s.threads[t].Outside? || s.threads[t].PushSleeping? || s.threads[t].PopSleeping?
  }

  /** So the threads cannot all be asleep for nothing: consumers only on an empty ring, producers only on a full one. */
  lemma NeverStuckForNothing<T>(buffer: seq<T>, steps: seq<Step<T>>)
    requires |buffer| > 0 && Stuck(Run(Empty(buffer), steps))
    ensures var s := Run(Empty(buffer), steps);
            && (AnySleeping(s.threads, true) ==> s.pushed == s.popped)
            && (AnySleeping(s.threads, false) ==> |s.pushed| == |s.popped| + |buffer|)
            && !(AnySleeping(s.threads, true) && AnySleeping(s.threads, false))
  {
    NoWakeUpIsLost(buffer, steps);
    EveryRunIsFifo(buffer, steps);
    var s := Run(Empty(buffer), steps);
    NumberZero(s.threads, WokenConsumer);
    NumberZero(s.threads, NotifyingConsumers);
    NumberZero(s.threads, WokenProducer);
    NumberZero(s.threads, NotifyingProducers);
  }

  // ---------------------------------------------------------------- arguments and results

  /** What the push that thread `t` began last was called with. */
  function Argument<T>(buffer: seq<T>, steps: seq<Step<T>>, t: nat): Option<T> {
    if steps == [] then None
    else
      var before, step := steps[..|steps| - 1], steps[|steps| - 1];
      if step.CallPush? && step.t == t && At(Run(Empty(buffer), before), t).Outside? then Some(step.data)
      else Argument(buffer, before, t)
  }

  /** A producer is in its critical section and finds room. */
  predicate Stores<T>(s: Ring<T>, step: Step<T>) {
    step.Enter? && (At(s, step.t).PushReady? || At(s, step.t).PushWoken?) && |Contents(s)| < |s.buffer|
  }

  /** A consumer is in its critical section and finds a value. */
  predicate Takes<T>(s: Ring<T>, step: Step<T>) {
    step.Enter? && (At(s, step.t).PopReady? || At(s, step.t).PopWoken?) && Contents(s) != []
  }

  /** The arguments of the pushes that have stored their value, in that order. */
  function StoredArguments<T>(buffer: seq<T>, steps: seq<Step<T>>): seq<Option<T>> {
    if steps == [] then []
    else
      var before, step := steps[..|steps| - 1], steps[|steps| - 1];
      if Stores(Run(Empty(buffer), before), step)
      then StoredArguments(buffer, before) + [Argument(buffer, before, step.t)]
      else StoredArguments(buffer, before)
  }

  /** The front of the queue when thread `t` took a value last. */
  function Front<T>(buffer: seq<T>, steps: seq<Step<T>>, t: nat): Option<T> {
    if steps == [] then None
    else
      var before, step := steps[..|steps| - 1], steps[|steps| - 1];
      var s := Run(Empty(buffer), before);
      if Takes(s, step) && step.t == t then Some(Contents(s)[0]) else Front(buffer, before, t)
  }

  function Bringing<T>(l: Local<T>): Option<T> {
    match l
    case PushReady(data) => Some(data)
    case PushSleeping(data) => Some(data)
    case PushWoken(data) => Some(data)
    case _ => None
  }

  /** A sleeping, woken or waiting producer keeps its value, whichever thread steps. */
  lemma KeepsBringing<T>(s: Ring<T>, step: Step<T>, t: nat)
    ensures var l, l' := At(s, t), At(Apply(s, step), t);
            Bringing(l').Some? ==>
              Bringing(l') == if step.CallPush? && step.t == t && l.Outside? then Some(step.data) else Bringing(l)
  {
  }

  lemma KeepsResult<T>(s: Ring<T>, step: Step<T>, t: nat)
    requires Inv(s)
    ensures var l, l' := At(s, t), At(Apply(s, step), t);
            l'.PopNotifying? ==> if Takes(s, step) && step.t == t then l'.result == Contents(s)[0] else l' == l
  {
    if step.Enter? {
      PopStored(s, step.t);
    }
  }

  /** Under every interleaving a push keeps the value it was called with, however often it sleeps, until it stores it,
      and a pop that took a value has the one that was then the front. */
  lemma {:induction false} EveryCallCarriesItsOwn<T>(buffer: seq<T>, steps: seq<Step<T>>, t: nat)
    requires |buffer| > 0
    ensures var l := At(Run(Empty(buffer), steps), t);
            && (Bringing(l).Some? ==> Bringing(l) == Argument(buffer, steps, t))
            && (l.PopNotifying? ==> Some(l.result) == Front(buffer, steps, t))
  {
    if steps != [] {
      var before, step := steps[..|steps| - 1], steps[|steps| - 1];
      EveryCallCarriesItsOwn(buffer, before, t);
      RunKeepsInv(buffer, before);
      KeepsBringing(Run(Empty(buffer), before), step, t);
      KeepsResult(Run(Empty(buffer), before), step, t);
    }
  }

  lemma StoreAppends<T>(s: Ring<T>, step: Step<T>)
    requires Inv(s)
    ensures Apply(s, step).pushed == if Stores(s, step) then s.pushed + [At(s, step.t).data] else s.pushed
  {
    if step.Enter? {
      PopStored(s, step.t);
    }
  }

  /** Under every interleaving what was pushed is, in order, what the calls were called with. */
  lemma {:induction false} PushedIsArguments<T>(buffer: seq<T>, steps: seq<Step<T>>)
    requires |buffer| > 0
    ensures Wrapped(Run(Empty(buffer), steps).pushed) == StoredArguments(buffer, steps)
  {
    if steps != [] {
      var before, step := steps[..|steps| - 1], steps[|steps| - 1];
      PushedIsArguments(buffer, before);
      RunKeepsInv(buffer, before);
      StoreAppends(Run(Empty(buffer), before), step);
      if step.Enter? {
        EveryCallCarriesItsOwn(buffer, before, step.t);
      }
    }
  }

  // ---------------------------------------------------------------- the object

  /** Whom notify_one may wake: a thread asleep on the condition, or nobody when none is. */
  ghost predicate Wakes<T>(s: Ring<T>, u: nat, pop: bool) {
    (if pop then At(s, u).PopSleeping? else At(s, u).PushSleeping?) || !AnySleeping(s.threads, pop)
  }

  /** A turn that got in, whole: its critical section, then its notification. */
  function Turn<T>(s: Ring<T>, t: nat, u: nat): Ring<T> { Apply(Apply(s, Enter(t)), Notify(t, u)) }

  lemma PushTurn<T>(s: Ring<T>, t: nat, data: T, u: nat)
    requires Inv(s) && (At(s, t) == PushReady(data) || At(s, t) == PushWoken(data))
    requires s.count != |s.buffer| && Wakes(s, u, true)
    ensures var r := Turn(s, t, u);
            && Inv(r) && r == PushSection(s, t, data).(threads := r.threads)
            && At(r, t).Outside? && (At(s, u).PopSleeping? ==> At(r, u).PopWoken?)
  {
    PushStored(s, t, data);
    PushKeepsInv(s, t, data);
    NotifyKeepsInv(PushSection(s, t, data), t, u);
  }

  lemma PopTurn<T>(s: Ring<T>, t: nat, u: nat)
    requires Inv(s) && (At(s, t).PopReady? || At(s, t).PopWoken?)
    requires s.count != 0 && Wakes(s, u, false)
    ensures var r := Turn(s, t, u);
            && Inv(r) && r == PopSection(s, t).(threads := r.threads)
            && At(r, t).Outside? && (At(s, u).PushSleeping? ==> At(r, u).PushWoken?)
  {
    PopStored(s, t);
    PopKeepsInv(s, t);
    NotifyKeepsInv(PopSection(s, t), t, u);
  }

  /** A thread about to test its condition is not asleep, so beginning a call changes nobody's wake-up. */
  lemma CallWakes<T>(s: Ring<T>, t: nat, l: Local<T>, u: nat, pop: bool)
    requires Wakes(s, u, pop) && At(s, t).Outside? && (l.PushReady? || l.PopReady?)
    ensures Wakes(Put(s, t, l), u, pop)
  {
    var threads := s.threads[t := l];
    if AnySleeping(threads, pop) {
      var v :| v in threads && (if pop then threads[v].PopSleeping? else threads[v].PushSleeping?);
      assert v in s.threads && s.threads[v] == threads[v];
    }
  }

  /** Thread `t` is outside, or already inside this very push and not asleep. */
  ghost predicate MayPush<T>(l: Local<T>, data: T) { l.Outside? || l == PushReady(data) || l == PushWoken(data) }

  ghost predicate MayPop<T>(l: Local<T>) { l.Outside? || l.PopReady? || l.PopWoken? }

  /** The ring as an object.  Each call is one turn of thread `t`: it begins its call unless it is inside it already,
      tests the wait's condition under the mutex and either falls asleep or carries out the operation, gives the mutex
      up and notifies, waking `u`. */
  class RingBufferMPMC<T(0)> {
    const buffer: array<T>
    var front: nat
    var rear: nat
    var size: nat
    ghost var machine: Ring<T>

    ghost predicate Valid()
      reads this, buffer
    {
      && machine.buffer == buffer[..] && machine.front == front && machine.rear == rear && machine.count == size
      && Inv(machine)
    }

    /** The values pushed and not yet popped. */
    ghost function Held(): seq<T>
      reads this
    {
      Contents(machine)
    }

    constructor (capacity: nat)
      requires capacity > 0
      ensures Valid() && Held() == [] && buffer.Length == capacity && fresh(buffer)
      ensures machine == Empty(buffer[..])
    {
      buffer := new T[capacity];
      front, rear, size := 0, 0, 0;
      new;
      machine := Empty(buffer[..]);
      RunKeepsInv(buffer[..], []);
    }

    /** What happens outside the critical sections: some thread begins a call or wakes up spuriously. */
    ghost method Elsewhere(step: Step<T>)
      requires Valid() && (step.CallPush? || step.CallPop? || step.Spurious?)
      modifies this`machine
      ensures Valid() && machine == Apply(old(machine), step) && Held() == old(Held())
    {
      StepKeepsInv(machine, step);
      machine := Apply(machine, step);
    }

    /** A thread that is not inside its call yet begins it. */
    ghost method BeginPush(data: T, t: nat, u: nat)
      requires Valid() && MayPush(At(machine, t), data) && Wakes(machine, u, true)
      modifies this`machine
      ensures Valid() && machine == Apply(old(machine), CallPush(t, data)) && Held() == old(Held())
      ensures At(machine, t) == PushReady(data) || At(machine, t) == PushWoken(data)
      ensures Wakes(machine, u, true) && (old(At(machine, u)).PopSleeping? <==> At(machine, u).PopSleeping?)
    {
      if At(machine, t).Outside? {
        CallWakes(machine, t, PushReady(data), u, true);
        Elsewhere(CallPush(t, data));
      }
    }

    ghost method BeginPop(t: nat, u: nat)
      requires Valid() && MayPop(At(machine, t)) && Wakes(machine, u, false)
      modifies this`machine
      ensures Valid() && machine == Apply(old(machine), CallPop(t)) && Held() == old(Held())
      ensures At(machine, t).PopReady? || At(machine, t).PopWoken?
      ensures Wakes(machine, u, false) && (old(At(machine, u)).PushSleeping? <==> At(machine, u).PushSleeping?)
    {
      if At(machine, t).Outside? {
        CallWakes(machine, t, PopReady, u, false);
        Elsewhere(CallPop(t));
      }
    }

    method Count() returns (count: nat)
      requires Valid()
      ensures count == |Held()|
    {
      count := size;
    }

    /** The rest of a push that found room, and its notification. */
    method Store(data: T, ghost t: nat, ghost u: nat)
      requires Valid() && (At(machine, t) == PushReady(data) || At(machine, t) == PushWoken(data))
      requires size != buffer.Length && Wakes(machine, u, true)
      modifies this`rear, this`size, this`machine, buffer
      ensures Valid() && machine == Turn(old(machine), t, u) && Held() == old(Held()) + [data]
      ensures At(machine, t).Outside? && (old(At(machine, u)).PopSleeping? ==> At(machine, u).PopWoken?)
    {
      PushStored(machine, t, data);
      PushTurn(machine, t, data, u);
      buffer[rear] := data;
      rear := (rear + 1) % buffer.Length;
      size := size + 1;
      machine := Turn(machine, t, u);
    }

    /** The rest of a pop that found a value, and its notification. */
    method Take(ghost t: nat, ghost u: nat) returns (value: T)
      requires Valid() && (At(machine, t).PopReady? || At(machine, t).PopWoken?)
      requires size != 0 && Wakes(machine, u, false)
      modifies this`front, this`size, this`machine
      ensures Valid() && machine == Turn(old(machine), t, u) && old(Held()) == [value] + Held()
      ensures At(machine, t).Outside? && (old(At(machine, u)).PushSleeping? ==> At(machine, u).PushWoken?)
    {
      PopStored(machine, t);
      PopTurn(machine, t, u);
      value := buffer[front];
      front := (front + 1) % buffer.Length;
      size := size - 1;
      machine := Turn(machine, t, u);
    }

    method Push(data: T, ghost t: nat, ghost u: nat) returns (sleeps: bool)
      requires Valid() && MayPush(At(machine, t), data) && Wakes(machine, u, true)
      modifies this`rear, this`size, this`machine, buffer
      ensures Valid()
      ensures sleeps <==> |old(Held())| == buffer.Length
      ensures Held() == if sleeps then old(Held()) else old(Held()) + [data]
      ensures var called := Apply(old(machine), CallPush(t, data));
              machine == if sleeps then Apply(called, Enter(t)) else Turn(called, t, u)
      ensures At(machine, t) == if sleeps then PushSleeping(data) else Outside
      ensures !sleeps && old(At(machine, u)).PopSleeping? ==> At(machine, u).PopWoken?
    {
      BeginPush(data, t, u);
      PushStored(machine, t, data);
      if size == buffer.Length {
        PushKeepsInv(machine, t, data);
        machine := PushSection(machine, t, data);
        return true;
      }
      Store(data, t, u);
      sleeps := false;
    }

    method Pop(ghost t: nat, ghost u: nat) returns (sleeps: bool, result: Option<T>)
      requires Valid() && MayPop(At(machine, t)) && Wakes(machine, u, false)
      modifies this`front, this`size, this`machine
      ensures Valid()
      ensures sleeps <==> old(Held()) == []
      ensures result == if sleeps then None else Some(old(Held())[0])
      ensures Held() == if sleeps then [] else old(Held())[1..]
      ensures var called := Apply(old(machine), CallPop(t));
              machine == if sleeps then Apply(called, Enter(t)) else Turn(called, t, u)
      ensures At(machine, t) == if sleeps then PopSleeping else Outside
      ensures !sleeps && old(At(machine, u)).PushSleeping? ==> At(machine, u).PushWoken?
    {
      BeginPop(t, u);
      PopStored(machine, t);
      if size == 0 {
        PopKeepsInv(machine, t);
        machine := PopSection(machine, t);
        return true, None;
      }
      var value := Take(t, u);
      sleeps, result := false, Some(value);
    }
  }
}
