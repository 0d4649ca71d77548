/** The lock-free ring buffer of one producer and one consumer, one step per shared load or store.  A load of the other
    side's index may return any value that index has had since the loading side last looked: views are stale but
    monotone.  Histories and views are counted in items; the shared indices are the counts modulo the capacity. */
module SpscRings {
  import opened Options
  import opened RingArithmetic
  import opened Sequences

  datatype Producer<T> =
    | PushIdle
    | PushCalled(val: T)
    | PushLoaded(val: T, tail: nat)
    | PushWriting(val: T, tail: nat, next: nat)
    | PushStoring(val: T, tail: nat, next: nat)

  datatype Consumer<T> =
    | PopIdle
    | PopCalled
    | PopLoaded(head: nat)
    | PopReading(head: nat)
    | PopStoring(head: nat, element: T)

  datatype Ring<T> = Ring(
    buffer: seq<T>, write: nat, read: nat,
    producer: Producer<T>, consumer: Consumer<T>,
    // history
    pushed: seq<T>,         // every value whose tryPush returned true, in order
    popped: seq<T>,         // every value a tryPop handed out, in order
    readsSeen: nat,         // the consumer's progress as the producer last saw it
    writesSeen: nat)        // the producer's progress as the consumer last saw it

  datatype Step<T> =
    | CallPush(val: T) | LoadWrite | LoadReadIndex(seen: nat) | WriteSlot | StoreWrite
    | CallPop | LoadRead | LoadWriteIndex(seen: nat) | ReadSlot | StoreRead

  function Empty<T>(buffer: seq<T>): Ring<T> { Ring(buffer, 0, 0, PushIdle, PopIdle, [], [], 0, 0) }

  predicate Enabled<T>(s: Ring<T>, step: Step<T>) {
    match step
    case CallPush(_) => s.producer.PushIdle?
    case LoadWrite => s.producer.PushCalled?
    case LoadReadIndex(seen) => s.producer.PushLoaded? && s.readsSeen <= seen <= |s.popped|
    case WriteSlot => s.producer.PushWriting? && s.producer.tail < |s.buffer|
    case StoreWrite => s.producer.PushStoring?
    case CallPop => s.consumer.PopIdle?
    case LoadRead => s.consumer.PopCalled?
    case LoadWriteIndex(seen) => s.consumer.PopLoaded? && s.writesSeen <= seen <= |s.pushed|
    case ReadSlot => s.consumer.PopReading? && s.consumer.head < |s.buffer|
    case StoreRead => s.consumer.PopStoring?
  }

  function Perform<T>(s: Ring<T>, step: Step<T>): Ring<T>
    requires |s.buffer| > 0 && Enabled(s, step)
  {
    var capacity := |s.buffer|;
    match step
    case CallPush(val) => s.(producer := PushCalled(val))
    case LoadWrite => s.(producer := PushLoaded(s.producer.val, s.write))
    case LoadReadIndex(seen) =>
      var p := s.producer;
      var next := Increment(p.tail, capacity);
      s.(readsSeen := seen,
         producer := if next != seen % capacity then PushWriting(p.val, p.tail, next) else PushIdle)
    case WriteSlot =>
      var p := s.producer;
      s.(buffer := s.buffer[p.tail := p.val], producer := PushStoring(p.val, p.tail, p.next))
    case StoreWrite =>
      s.(write := s.producer.next, pushed := s.pushed + [s.producer.val], producer := PushIdle)
    case CallPop => s.(consumer := PopCalled)
    case LoadRead => s.(consumer := PopLoaded(s.read))
    case LoadWriteIndex(seen) =>
      var head := s.consumer.head;
      s.(writesSeen := seen, consumer := if head == seen % capacity then PopIdle else PopReading(head))
    case ReadSlot => s.(consumer := PopStoring(s.consumer.head, s.buffer[s.consumer.head]))
    case StoreRead =>
      s.(read := Increment(s.consumer.head, capacity), popped := s.popped + [s.consumer.element], consumer := PopIdle)
  }

  /** A step that is not enabled leaves the state alone, so any sequence of steps is a run. */
  function Apply<T>(s: Ring<T>, step: Step<T>): (r: Ring<T>)
    requires |s.buffer| > 0
    ensures |r.buffer| == |s.buffer|
  {
    if Enabled(s, step) then Perform(s, step) else s
  }

  function Run<T>(s: Ring<T>, steps: seq<Step<T>>): (r: Ring<T>)
    requires |s.buffer| > 0
    ensures |r.buffer| == |s.buffer|
  {
    if steps == [] then s else Apply(Run(s, steps[..|steps| - 1]), steps[|steps| - 1])
  }

  // ---------------------------------------------------------------- the invariant

  /** How far the two sides and their views of each other can be apart. */
  ghost predicate Counted<T>(s: Ring<T>) {
    var capacity, w, r := |s.buffer|, |s.pushed|, |s.popped|;
    && capacity > 0
    && s.write == w % capacity && s.read == r % capacity
    && s.readsSeen <= r <= s.writesSeen <= w
    && w - s.readsSeen <= capacity - 1
  }

  /** The producer writes only a slot whose last value it has seen read. */
  ghost predicate ProducerOk<T>(s: Ring<T>)
    requires |s.buffer| > 0
  {
    var p, capacity := s.producer, |s.buffer|;
    && (p.PushLoaded? ==> p.tail == s.write)
    && (p.PushWriting? || p.PushStoring? ==>
          p.tail == s.write && p.next == Increment(p.tail, capacity) && |s.pushed| + 1 - s.readsSeen <= capacity - 1)
    && (p.PushStoring? ==> p.tail < capacity && s.buffer[p.tail] == p.val)
  }

  /** The consumer reads only a slot whose value it has seen written. */
  ghost predicate ConsumerOk<T>(s: Ring<T>) {
    var c := s.consumer;
    && (c.PopLoaded? || c.PopReading? || c.PopStoring? ==> c.head == s.read)
    && (c.PopReading? || c.PopStoring? ==> |s.popped| < s.writesSeen <= |s.pushed|)
    && (c.PopStoring? ==> c.element == s.pushed[|s.popped|])
  }

  /** Every value pushed and not yet popped is still in its slot. */
  ghost predicate Held<T>(s: Ring<T>)
    requires |s.buffer| > 0
  {
    forall i :: |s.popped| <= i < |s.pushed| ==> s.buffer[i % |s.buffer|] == s.pushed[i]
  }

  ghost predicate Inv<T>(s: Ring<T>) {
    Counted(s) && ProducerOk(s) && ConsumerOk(s) && Held(s) && s.popped <= s.pushed
  }

  lemma WriteKeepsInv<T>(s: Ring<T>)
    requires Inv(s) && Enabled(s, WriteSlot)
    ensures Inv(Perform(s, WriteSlot))
  {
    var capacity := |s.buffer|;
    forall i | |s.popped| <= i < |s.pushed| ensures i % capacity != s.producer.tail {
      if i % capacity == s.producer.tail {
        ModDistinct(i, |s.pushed|, capacity);
      }
    }
    var r := Perform(s, WriteSlot);
    assert Held(r);
    assert Counted(r);
  }

  lemma StoreWriteKeepsInv<T>(s: Ring<T>)
    requires Inv(s) && Enabled(s, StoreWrite)
    ensures Inv(Perform(s, StoreWrite))
  {
    ModNext(|s.pushed|, |s.buffer|);
    var r := Perform(s, StoreWrite);
    forall i | |r.popped| <= i < |r.pushed| ensures r.buffer[i % |r.buffer|] == r.pushed[i] {
      assert i < |s.pushed| ==> r.pushed[i] == s.pushed[i];
    }
  }

  lemma LoadReadIndexKeepsInv<T>(s: Ring<T>, seen: nat)
    requires Inv(s) && Enabled(s, LoadReadIndex(seen))
    ensures Inv(Perform(s, LoadReadIndex(seen)))
    ensures Perform(s, LoadReadIndex(seen)).producer.PushIdle? <==> |s.pushed| - seen == |s.buffer| - 1
  {
    var capacity, w := |s.buffer|, |s.pushed|;
    ModNext(w, capacity);
    if w - seen == capacity - 1 {
      ModWraps(seen, capacity);
    } else if (w + 1) % capacity == seen % capacity {
      ModDistinct(seen, w + 1, capacity);
    }
  }

  lemma LoadWriteIndexKeepsInv<T>(s: Ring<T>, seen: nat)
    requires Inv(s) && Enabled(s, LoadWriteIndex(seen))
    ensures Inv(Perform(s, LoadWriteIndex(seen)))
    ensures Perform(s, LoadWriteIndex(seen)).consumer.PopIdle? <==> seen == |s.popped|
  {
    if |s.popped| % |s.buffer| == seen % |s.buffer| {
      ModDistinct(|s.popped|, seen, |s.buffer|);
    }
  }

  lemma StoreReadKeepsInv<T>(s: Ring<T>)
    requires Inv(s) && Enabled(s, StoreRead)
    ensures Inv(Perform(s, StoreRead))
  {
    ModNext(|s.popped|, |s.buffer|);
  }

  lemma StepKeepsInv<T>(s: Ring<T>, step: Step<T>)
    requires Inv(s)
    ensures Inv(Apply(s, step))
  {
    if Enabled(s, step) {
      match step
      case LoadReadIndex(seen) => LoadReadIndexKeepsInv(s, seen);
      case WriteSlot => WriteKeepsInv(s);
      case StoreWrite => StoreWriteKeepsInv(s);
      case LoadWriteIndex(seen) => LoadWriteIndexKeepsInv(s, seen);
      case StoreRead => StoreReadKeepsInv(s);
      case _ =>
    }
  }

  lemma {:induction false} RunKeepsInv<T>(s: Ring<T>, steps: seq<Step<T>>)
    requires Inv(s)
    ensures Inv(Run(s, steps))
  {
    if steps != [] {
      RunKeepsInv(s, steps[..|steps| - 1]);
      StepKeepsInv(Run(s, steps[..|steps| - 1]), steps[|steps| - 1]);
    }
  }

  // ---------------------------------------------------------------- the theorems

  /** In every interleaving, with stale views, what was popped is a prefix of what was pushed, at most capacity - 1
      values are held, and each of them is still intact in its slot. */
  lemma EveryRunIsFifo<T>(buffer: seq<T>, steps: seq<Step<T>>)
    requires |buffer| > 0
    ensures var s := Run(Empty(buffer), steps);
            && s.popped <= s.pushed && |s.pushed| - |s.popped| <= |buffer| - 1
            && forall i :: |s.popped| <= i < |s.pushed| ==> s.buffer[i % |buffer|] == s.pushed[i]
  {
    assert 0 % |buffer| == 0;
    RunKeepsInv(Empty(buffer), steps);
  }

  /** No slot is overwritten before it has been read, and no slot is read before it has been written.  The last value
      put into the slot being written is number |pushed| - capacity: the producer has seen it read.  The value being
      read is number |popped|: the consumer has seen it written. */
  lemma EveryAccessIsOrdered<T>(buffer: seq<T>, steps: seq<Step<T>>)
    requires |buffer| > 0
    ensures var s := Run(Empty(buffer), steps); var capacity := |buffer|;
            && (s.producer.PushWriting? ==> s.producer.tail == |s.pushed| % capacity
                                            && |s.pushed| - capacity < s.readsSeen <= |s.popped|)
            && (s.consumer.PopReading? ==> s.consumer.head == |s.popped| % capacity
                                           && |s.popped| < s.writesSeen <= |s.pushed|
                                           && s.buffer[s.consumer.head] == s.pushed[|s.popped|])
            && (s.producer.PushWriting? && s.consumer.PopReading? ==> s.producer.tail != s.consumer.head)
  {
    var s := Run(Empty(buffer), steps);
    assert 0 % |buffer| == 0;
    RunKeepsInv(Empty(buffer), steps);
    if s.producer.PushWriting? && s.consumer.PopReading? && s.producer.tail == s.consumer.head {
      ModDistinct(|s.popped|, |s.pushed|, |buffer|);
    }
  }

  /** The abstract queue. */
  function Contents<T>(s: Ring<T>): seq<T> { if |s.popped| <= |s.pushed| then s.pushed[|s.popped|..] else [] }

  lemma StoreWriteRefines<T>(s: Ring<T>)
    requires Inv(s) && s.producer.PushStoring?
    ensures Contents(Perform(s, StoreWrite)) == Contents(s) + [s.producer.val]
  {
    AppendBeyond(s.pushed, s.producer.val, |s.popped|);
  }

  lemma StoreReadRefines<T>(s: Ring<T>)
    requires Inv(s) && s.consumer.PopStoring?
    ensures Contents(s) == [s.consumer.element] + Contents(Perform(s, StoreRead))
  {
    DropFirst(s.pushed, |s.popped|);
  }

  lemma OthersKeepContents<T>(s: Ring<T>, step: Step<T>)
    requires |s.buffer| > 0 && !step.StoreWrite? && !step.StoreRead?
    ensures Contents(Apply(s, step)) == Contents(s)
  {
  }

  /** Every step of every interleaving is a step of the abstract queue: publishing the write index appends the value of
      the tryPush under way, publishing the read index removes the front, which is what the tryPop under way hands out,
      and nothing else changes the contents. */
  lemma StepsRefineFifo<T>(buffer: seq<T>, steps: seq<Step<T>>, step: Step<T>)
    requires |buffer| > 0 && Enabled(Run(Empty(buffer), steps), step)
    ensures var s := Run(Empty(buffer), steps); var r := Apply(s, step);
            if step.StoreWrite? then Contents(r) == Contents(s) + [s.producer.val]
            else if step.StoreRead? then Contents(s) == [s.consumer.element] + Contents(r)
            else Contents(r) == Contents(s)
  {
    assert 0 % |buffer| == 0;
    RunKeepsInv(Empty(buffer), steps);
    var s := Run(Empty(buffer), steps);
    match step
    case StoreWrite => StoreWriteRefines(s);
    case StoreRead => StoreReadRefines(s);
    case _ => OthersKeepContents(s, step);
  }

  /** tryPush gives up exactly when, by the read index it loaded, the ring held capacity - 1 values. */
  lemma PushRefusalIsHonest<T>(buffer: seq<T>, steps: seq<Step<T>>, seen: nat)
    requires |buffer| > 0 && Enabled(Run(Empty(buffer), steps), LoadReadIndex(seen))
    ensures var s := Run(Empty(buffer), steps); var r := Apply(s, LoadReadIndex(seen));
            && (r.producer.PushIdle? <==> |s.pushed| - seen == |buffer| - 1)
            && (r.producer.PushIdle? && seen == |s.popped| ==> |s.pushed| - |s.popped| == |buffer| - 1)
  {
    assert 0 % |buffer| == 0;
    RunKeepsInv(Empty(buffer), steps);
    LoadReadIndexKeepsInv(Run(Empty(buffer), steps), seen);
  }

  /** tryPop gives up exactly when, by the write index it loaded, the ring was empty. */
  lemma PopRefusalIsHonest<T>(buffer: seq<T>, steps: seq<Step<T>>, seen: nat)
    requires |buffer| > 0 && Enabled(Run(Empty(buffer), steps), LoadWriteIndex(seen))
    ensures var s := Run(Empty(buffer), steps); var r := Apply(s, LoadWriteIndex(seen));
            && (r.consumer.PopIdle? <==> seen == |s.popped|)
            && (r.consumer.PopIdle? && seen == |s.pushed| ==> s.pushed == s.popped)
  {
    assert 0 % |buffer| == 0;
    RunKeepsInv(Empty(buffer), steps);
    LoadWriteIndexKeepsInv(Run(Empty(buffer), steps), seen);
  }

  // ---------------------------------------------------------------- arguments and results

  /** What the tryPush begun last was called with. */
  function Argument<T>(buffer: seq<T>, steps: seq<Step<T>>): Option<T>
    requires |buffer| > 0
  {
    if steps == [] then None
    else
      var before, step := steps[..|steps| - 1], steps[|steps| - 1];
      if step.CallPush? && Run(Empty(buffer), before).producer.PushIdle? then Some(step.val)
      else Argument(buffer, before)
  }

  /** The arguments of the calls that have stored the write index, in that order. */
  function StoredArguments<T>(buffer: seq<T>, steps: seq<Step<T>>): seq<Option<T>>
    requires |buffer| > 0
  {
    if steps == [] then []
    else
      var before, step := steps[..|steps| - 1], steps[|steps| - 1];
      if step.StoreWrite? && Run(Empty(buffer), before).producer.PushStoring?
      then StoredArguments(buffer, before) + [Argument(buffer, before)]
      else StoredArguments(buffer, before)
  }

  /** Under every interleaving a tryPush keeps the value it was called with until it returns. */
  lemma {:induction false} EveryPushCarriesItsOwn<T>(buffer: seq<T>, steps: seq<Step<T>>)
    requires |buffer| > 0
    ensures var p := Run(Empty(buffer), steps).producer; !p.PushIdle? ==> Some(p.val) == Argument(buffer, steps)
  {
    if steps != [] {
      EveryPushCarriesItsOwn(buffer, steps[..|steps| - 1]);
    }
  }

  lemma StoreAppends<T>(s: Ring<T>, step: Step<T>)
    requires |s.buffer| > 0
    ensures Apply(s, step).pushed
         == if step.StoreWrite? && s.producer.PushStoring? then s.pushed + [s.producer.val] else s.pushed
  {
  }

  /** Under every interleaving what was pushed is, in order, what the calls that returned true were called with. */
  lemma {:induction false} PushedIsArguments<T>(buffer: seq<T>, steps: seq<Step<T>>)
    requires |buffer| > 0
    ensures Wrapped(Run(Empty(buffer), steps).pushed) == StoredArguments(buffer, steps)
  {
    if steps != [] {
      var before, step := steps[..|steps| - 1], steps[|steps| - 1];
      PushedIsArguments(buffer, before);
      StoreAppends(Run(Empty(buffer), before), step);
      EveryPushCarriesItsOwn(buffer, before);
    }
  }

  // ---------------------------------------------------------------- the object

  function Steps5<T>(s: Ring<T>, a: Step<T>, b: Step<T>, c: Step<T>, d: Step<T>, e: Step<T>): Ring<T>
    requires |s.buffer| > 0
  {
    Apply(Apply(Apply(Apply(Apply(s, a), b), c), d), e)
  }

  lemma RunSnoc<T>(s: Ring<T>, steps: seq<Step<T>>, step: Step<T>)
    requires |s.buffer| > 0
    ensures Run(s, steps + [step]) == Apply(Run(s, steps), step)
  {
    assert (steps + [step])[..|steps|] == steps;
  }

  lemma RunsThree<T>(s: Ring<T>, a: Step<T>, b: Step<T>, c: Step<T>)
    requires |s.buffer| > 0
    ensures Run(s, [a, b, c]) == Apply(Apply(Apply(s, a), b), c)
  {
    RunSnoc(s, [], a);
    assert [] + [a] == [a];
    RunSnoc(s, [a], b);
    assert [a] + [b] == [a, b];
    RunSnoc(s, [a, b], c);
    assert [a, b] + [c] == [a, b, c];
  }

  lemma RunsFive<T>(s: Ring<T>, a: Step<T>, b: Step<T>, c: Step<T>, d: Step<T>, e: Step<T>)
    requires |s.buffer| > 0
    ensures Run(s, [a, b, c, d, e]) == Steps5(s, a, b, c, d, e)
  {
    RunsThree(s, a, b, c);
    RunSnoc(s, [a, b, c], d);
    assert [a, b, c] + [d] == [a, b, c, d];
    RunSnoc(s, [a, b, c, d], e);
    assert [a, b, c, d] + [e] == [a, b, c, d, e];
  }

  /** One call of tryPush with an up-to-date view; after a refusal the last two steps are stutters. */
  function PushSteps<T>(s: Ring<T>, val: T): seq<Step<T>> {
    [CallPush(val), LoadWrite, LoadReadIndex(|s.popped|), WriteSlot, StoreWrite]
  }

  function PopSteps<T>(s: Ring<T>): seq<Step<T>> {
    [CallPop, LoadRead, LoadWriteIndex(|s.pushed|), ReadSlot, StoreRead]
  }

  ghost predicate Quiet<T>(s: Ring<T>) { Inv(s) && s.producer.PushIdle? && s.consumer.PopIdle? }

  lemma FullTest<T>(s: Ring<T>)
    requires Inv(s)
    ensures Increment(s.write, |s.buffer|) == s.read <==> |s.pushed| - |s.popped| == |s.buffer| - 1
  {
    var capacity := |s.buffer|;
    ModNext(|s.pushed|, capacity);
    if |s.pushed| - |s.popped| == capacity - 1 {
      ModWraps(|s.popped|, capacity);
    } else if (|s.pushed| + 1) % capacity == |s.popped| % capacity {
      ModDistinct(|s.popped|, |s.pushed| + 1, capacity);
    }
  }

  /** What one whole call of tryPush does. */
  lemma PushOutcome<T>(s: Ring<T>, val: T)
    requires Quiet(s)
    ensures var r := Run(s, PushSteps(s, val));
            && Quiet(r)
            && r == if |s.pushed| - |s.popped| == |s.buffer| - 1 then s.(readsSeen := |s.popped|)
                    else s.(readsSeen := |s.popped|, buffer := s.buffer[s.write := val],
                            write := Increment(s.write, |s.buffer|), pushed := s.pushed + [val])
  {
    FullTest(s);
    RunsFive(s, CallPush(val), LoadWrite, LoadReadIndex(|s.popped|), WriteSlot, StoreWrite);
    RunKeepsInv(s, PushSteps(s, val));
    var s3 := Apply(Apply(Apply(s, CallPush(val)), LoadWrite), LoadReadIndex(|s.popped|));
    if Increment(s.write, |s.buffer|) == s.read {
      assert s3 == s.(readsSeen := |s.popped|);
    } else {
      assert s3 == s.(readsSeen := |s.popped|, producer := PushWriting(val, s.write, Increment(s.write, |s.buffer|)));
    }
  }

  /** The first three steps of tryPop. */
  lemma PopLooks<T>(s: Ring<T>)
    requires Quiet(s)
    ensures s.read == s.write <==> s.popped == s.pushed
    ensures Apply(Apply(Apply(s, CallPop), LoadRead), LoadWriteIndex(|s.pushed|))
         == s.(writesSeen := |s.pushed|, consumer := if s.popped == s.pushed then PopIdle else PopReading(s.read))
  {
    if s.read == s.write {
      ModDistinct(|s.popped|, |s.pushed|, |s.buffer|);
    }
  }

  /** The last two; after a refusal both are stutters. */
  lemma PopTakes<T>(s: Ring<T>)
    requires |s.buffer| > 0 && s.read < |s.buffer|
    ensures s.consumer.PopIdle? ==> Apply(Apply(s, ReadSlot), StoreRead) == s
    ensures s.consumer == PopReading(s.read) ==>
              Apply(Apply(s, ReadSlot), StoreRead)
                == s.(read := Increment(s.read, |s.buffer|), popped := s.popped + [s.buffer[s.read]],
                      consumer := PopIdle)
  {
  }

  /** What one whole call of tryPop does. */
  lemma PopOutcome<T>(s: Ring<T>)
    requires Quiet(s)
    ensures s.read == s.write <==> s.popped == s.pushed
    ensures var r := Run(s, PopSteps(s));
            && Quiet(r)
            && r == if s.popped == s.pushed then s.(writesSeen := |s.pushed|)
                    else s.(writesSeen := |s.pushed|, read := Increment(s.read, |s.buffer|),
                            popped := s.popped + [s.buffer[s.read]])
  {
    RunsFive(s, CallPop, LoadRead, LoadWriteIndex(|s.pushed|), ReadSlot, StoreRead);
    RunKeepsInv(s, PopSteps(s));
    PopLooks(s);
    PopTakes(s.(writesSeen := |s.pushed|, consumer := if s.popped == s.pushed then PopIdle else PopReading(s.read)));
  }

  /** The ring as an object called by one thread at a time: each call is the machine's steps taken back to back. */
  class RingBufferSPSCLockFree<T(0)> {
    const buffer: array<T>
    var write: nat
    var read: nat
    ghost var machine: Ring<T>

    ghost predicate Valid()
      reads this, buffer
    {
      && machine.buffer == buffer[..] && machine.write == write && machine.read == read
      && Quiet(machine)
    }

    /** The values pushed and not yet popped. */
    ghost function Held(): seq<T>
      reads this
    {
      Contents(machine)
    }

    constructor (capacity: nat)
      requires capacity > 0
      ensures Valid() && Held() == [] && buffer.Length == capacity && fresh(buffer)
    {
      buffer := new T[capacity];
      write, read := 0, 0;
      new;
      machine := Empty(buffer[..]);
      assert 0 % capacity == 0;
    }

    method TryPush(val: T) returns (ok: bool)
      requires Valid()
      modifies this`write, this`machine, buffer
      ensures Valid()
      ensures machine == Run(old(machine), PushSteps(old(machine), val))
      ensures ok <==> |old(Held())| < buffer.Length - 1
      ensures Held() == if ok then old(Held()) + [val] else old(Held())
    {
      PushOutcome(machine, val);
      FullTest(machine);
      var currentTail := write;
      var nextTail := Increment(currentTail, buffer.Length);
      if nextTail != read {
        buffer[currentTail] := val;
        write := nextTail;
        ok := true;
      } else {
        ok := false;
      }
      machine := Run(machine, PushSteps(machine, val));
    }

    method TryPop() returns (element: Option<T>)
      requires Valid()
      modifies this`read, this`machine
      ensures Valid()
      ensures machine == Run(old(machine), PopSteps(old(machine)))
      ensures element.None? <==> old(Held()) == []
      ensures old(Held()) == if element.Some? then [element.value] + Held() else Held()
    {
      PopOutcome(machine);
      var currentHead := read;
      if currentHead == write {
        element := None;
      } else {
        element := Some(buffer[currentHead]);
        read := Increment(currentHead, buffer.Length);
      }
      machine := Run(machine, PopSteps(machine));
    }
  }
}
