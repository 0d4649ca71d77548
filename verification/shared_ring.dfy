/** The lock-free ring buffer with more than one producer, which is what a worker that submits an unfound cancel again
    makes of it.  One step per shared load or store; every load sees the latest store.  Here values can be lost: exactly
    which steps lose one, and why calls that do not overlap never do. */
module SharedRings {
  import opened Options
  import opened Sequences
  import opened RingArithmetic
  import opened SpscRings

  datatype Shared<T> = Shared(
    buffer: seq<T>, write: nat, read: nat,
    producers: map<nat, Producer<T>>, consumer: Consumer<T>,
    // history
    accepted: seq<T>,       // every value whose tryPush returned true, in the order of the stores
    popped: seq<T>)         // every value a tryPop handed out, in order

  /** A producer begins a call of tryPush, or takes the next step of it; the consumer takes its next step. */
  datatype Move<T> = Begin(t: nat, val: T) | Produce(t: nat) | Consume

  function ProducerAt<T>(s: Shared<T>, t: nat): Producer<T> { if t in s.producers then s.producers[t] else PushIdle }

  function Put<T>(s: Shared<T>, t: nat, p: Producer<T>): Shared<T> { s.(producers := s.producers[t := p]) }

  function Fresh<T>(buffer: seq<T>): Shared<T> { Shared(buffer, 0, 0, map[], PopIdle, [], []) }

  function ProducerMove<T>(s: Shared<T>, t: nat): (r: Shared<T>)
    requires |s.buffer| > 0
    ensures |r.buffer| == |s.buffer|
  {
    match ProducerAt(s, t)
    case PushIdle => s
    case PushCalled(val) => Put(s, t, PushLoaded(val, s.write))
    case PushLoaded(val, tail) =>
      var next := Increment(tail, |s.buffer|);
      Put(s, t, if next != s.read then PushWriting(val, tail, next) else PushIdle)
    case PushWriting(val, tail, next) =>
      if tail < |s.buffer| then Put(s, t, PushStoring(val, tail, next)).(buffer := s.buffer[tail := val]) else s
    case PushStoring(val, tail, next) => Put(s, t, PushIdle).(write := next, accepted := s.accepted + [val])
  }

  function ConsumerMove<T>(s: Shared<T>): (r: Shared<T>)
    requires |s.buffer| > 0
    ensures |r.buffer| == |s.buffer|
  {
    match s.consumer
    case PopIdle => s.(consumer := PopCalled)
    case PopCalled => s.(consumer := PopLoaded(s.read))
    case PopLoaded(head) => s.(consumer := if head == s.write then PopIdle else PopReading(head))
    case PopReading(head) => if head < |s.buffer| then s.(consumer := PopStoring(head, s.buffer[head])) else s
    case PopStoring(head, element) =>
      s.(read := Increment(head, |s.buffer|), popped := s.popped + [element], consumer := PopIdle)
  }

  /** A call begins only outside a call; otherwise the move leaves the state alone, so any sequence is a run. */
  function Apply<T>(s: Shared<T>, move: Move<T>): (r: Shared<T>)
    requires |s.buffer| > 0
    ensures |r.buffer| == |s.buffer|
  {
    match move
    case Begin(t, val) => if ProducerAt(s, t).PushIdle? then Put(s, t, PushCalled(val)) else s
    case Produce(t) => ProducerMove(s, t)
    case Consume => ConsumerMove(s)
  }

  function Run<T>(s: Shared<T>, moves: seq<Move<T>>): (r: Shared<T>)
    requires |s.buffer| > 0
    ensures |r.buffer| == |s.buffer|
  {
    if moves == [] then s else Apply(Run(s, moves[..|moves| - 1]), moves[|moves| - 1])
  }

  // ---------------------------------------------------------------- what the ring holds

  /** How many slots lie from `read` up to `write`, going round. */
  function Span(read: nat, write: nat, capacity: nat): nat
    requires read < capacity && write < capacity
  {
    if read <= write then write - read else write + capacity - read
  }

  function Slot(read: nat, i: nat, capacity: nat): (r: nat)
    requires read < capacity && i < capacity
    ensures r < capacity
  {
    if read + i < capacity then read + i else read + i - capacity
  }

  /** The values a consumer will still find, oldest first. */
  function Waiting<T>(s: Shared<T>): seq<T>
    requires s.read < |s.buffer| && s.write < |s.buffer|
  {
    seq(Span(s.read, s.write, |s.buffer|),
        i requires 0 <= i < Span(s.read, s.write, |s.buffer|) => s.buffer[Slot(s.read, i, |s.buffer|)])
  }

  /** Nothing is lost, duplicated or out of order: what was accepted is what was popped, then what is waiting. */
  ghost predicate Intact<T>(s: Shared<T>) {
    s.read < |s.buffer| && s.write < |s.buffer| && s.accepted == s.popped + Waiting(s)
  }

  /** `n` is the slot of a value that waits. */
  predicate Occupied<T>(s: Shared<T>, n: nat)
    requires s.read < |s.buffer| && s.write < |s.buffer|
  {
    exists i :: 0 <= i < Span(s.read, s.write, |s.buffer|) && Slot(s.read, i, |s.buffer|) == n
  }

  /** A producer's move that loses nothing: it writes into no occupied slot (unless the same value), and it stores the
      successor of the present write index, with room left and its own value still in the slot. */
  ghost predicate Clean<T>(s: Shared<T>, move: Move<T>) {
    move.Produce? && s.read < |s.buffer| && s.write < |s.buffer| ==>
      match ProducerAt(s, move.t)
      case PushWriting(val, tail, _) => tail < |s.buffer| && Occupied(s, tail) ==> s.buffer[tail] == val
      case PushStoring(val, tail, next) =>
        tail == s.write && next != s.read && tail < |s.buffer| && s.buffer[tail] == val
      case _ => true
  }

  // ---------------------------------------------------------------- exactly the clean moves lose nothing

  lemma IncrementIs(n: nat, capacity: nat)
    requires n < capacity
    ensures Increment(n, capacity) == if n + 1 == capacity then 0 else n + 1
  {
  }

  ghost predicate ProducersInRange<T>(s: Shared<T>) {
    forall t :: InRange(ProducerAt(s, t), |s.buffer|)
  }

  predicate InRange<T>(p: Producer<T>, capacity: nat) {
    match p
    case PushLoaded(_, tail) => tail < capacity
    case PushWriting(_, tail, next) => tail < capacity && next == Increment(tail, capacity)
    case PushStoring(_, tail, next) => tail < capacity && next == Increment(tail, capacity)
    case _ => true
  }

  ghost predicate ConsumerOk<T>(s: Shared<T>)
    requires s.read < |s.buffer| && s.write < |s.buffer|
  {
    match s.consumer
    case PopLoaded(head) => head == s.read
    case PopReading(head) => head == s.read && Waiting(s) != []
    case PopStoring(head, element) => head == s.read && Waiting(s) != [] && element == Waiting(s)[0]
    case _ => true
  }

  ghost predicate Good<T>(s: Shared<T>) {
    Intact(s) && ProducersInRange(s) && ConsumerOk(s)
  }

  lemma RangeKept<T>(s: Shared<T>, move: Move<T>)
    requires Intact(s) && ProducersInRange(s)
    ensures ProducersInRange(Apply(s, move))
  {
    var r := Apply(s, move);
    forall t ensures InRange(ProducerAt(r, t), |r.buffer|) {
      assert InRange(ProducerAt(s, t), |s.buffer|);
    }
  }

  lemma SlotsDiffer(read: nat, i: nat, j: nat, capacity: nat)
    requires read < capacity && i < capacity && j < capacity && Slot(read, i, capacity) == Slot(read, j, capacity)
    ensures i == j
  {
  }

  /** Writing a slot leaves what waits alone exactly when the slot is free or has the value already. */
  lemma WriteExactly<T>(s: Shared<T>, tail: nat, val: T)
    requires s.read < |s.buffer| && s.write < |s.buffer| && tail < |s.buffer|
    ensures Waiting(s.(buffer := s.buffer[tail := val])) == Waiting(s)
       <==> (Occupied(s, tail) ==> s.buffer[tail] == val)
  {
    var r := s.(buffer := s.buffer[tail := val]);
    var n := Span(s.read, s.write, |s.buffer|);
    if Occupied(s, tail) {
      var i :| 0 <= i < n && Slot(s.read, i, |s.buffer|) == tail;
      assert Waiting(r)[i] == val && Waiting(s)[i] == s.buffer[tail];
    }
    if Occupied(s, tail) ==> s.buffer[tail] == val {
      assert forall i :: 0 <= i < n ==> Waiting(r)[i] == Waiting(s)[i];
    }
  }

  /** Storing a successor index appends `val` to what waits exactly when the index is the successor of the present one,
      there is room, and `val` is in the slot. */
  lemma StoreExactly<T>(s: Shared<T>, tail: nat, val: T)
    requires s.read < |s.buffer| && s.write < |s.buffer| && tail < |s.buffer|
    ensures Waiting(s.(write := Increment(tail, |s.buffer|))) == Waiting(s) + [val]
       <==> tail == s.write && Increment(tail, |s.buffer|) != s.read && s.buffer[tail] == val
  {
    var capacity, next := |s.buffer|, Increment(tail, |s.buffer|);
    IncrementIs(tail, capacity);
    var r := s.(write := next);
    var n := Span(s.read, s.write, capacity);
    if tail == s.write && next != s.read {
      assert Span(s.read, next, capacity) == n + 1 && Slot(s.read, n, capacity) == tail;
      assert Waiting(r)[n] == s.buffer[tail];
      assert forall i :: 0 <= i < n ==> Waiting(r)[i] == Waiting(s)[i];
    } else {
      assert Span(s.read, next, capacity) != n + 1;
      assert |Waiting(r)| != |Waiting(s) + [val]|;
    }
  }

  lemma ReadExactly<T>(s: Shared<T>)
    requires s.read < |s.buffer| && s.write < |s.buffer| && Waiting(s) != []
    ensures var r := s.(read := Increment(s.read, |s.buffer|));
            Waiting(s)[0] == s.buffer[s.read] && Waiting(s) == [s.buffer[s.read]] + Waiting(r)
  {
    var capacity := |s.buffer|;
    IncrementIs(s.read, capacity);
    var r := s.(read := Increment(s.read, capacity));
    assert Span(s.read, s.write, capacity) == Span(r.read, s.write, capacity) + 1;
    assert forall i :: 0 <= i < |Waiting(r)| ==> Waiting(s)[i + 1] == Waiting(r)[i];
  }

  lemma AppendAgrees<T>(a: seq<T>, w: seq<T>, w': seq<T>, x: T)
    ensures a + w' == (a + w) + [x] <==> w' == w + [x]
  {
    assert (a + w) + [x] == a + (w + [x]);
    SameTail(a, w', w + [x]);
  }

  lemma SameTail<T>(a: seq<T>, b: seq<T>, c: seq<T>)
    ensures a + b == a + c <==> b == c
  {
    assert (a + b)[|a|..] == b && (a + c)[|a|..] == c;
  }

  lemma ProducerExactly<T>(s: Shared<T>, t: nat)
    requires Good(s)
    ensures Intact(ProducerMove(s, t)) <==> Clean(s, Produce(t))
    ensures Clean(s, Produce(t)) ==> Good(ProducerMove(s, t))
  {
    var r, p := ProducerMove(s, t), ProducerAt(s, t);
    assert InRange(p, |s.buffer|);
    RangeKept(s, Produce(t));
    match p
    case PushWriting(val, tail, _) =>
      WriteExactly(s, tail, val);
      assert Waiting(r) == Waiting(s.(buffer := s.buffer[tail := val]));
      SameTail(s.popped, Waiting(r), Waiting(s));
    case PushStoring(val, tail, next) =>
      StoreExactly(s, tail, val);
      assert Waiting(r) == Waiting(s.(write := next));
      AppendAgrees(s.popped, Waiting(s), Waiting(r), val);
    case _ =>
      assert Waiting(r) == Waiting(s);
  }

  lemma ConsumerKeepsGood<T>(s: Shared<T>)
    requires Good(s)
    ensures Good(ConsumerMove(s))
  {
    var r := ConsumerMove(s);
    RangeKept(s, Consume);
    match s.consumer
    case PopReading(head) =>
      ReadExactly(s);
      assert Waiting(r) == Waiting(s);
    case PopStoring(head, element) =>
      ReadExactly(s);
      assert Waiting(r) == Waiting(s.(read := Increment(s.read, |s.buffer|)));
      assert s.popped + ([element] + Waiting(r)) == (s.popped + [element]) + Waiting(r);
    case _ =>
      assert Waiting(r) == Waiting(s);
  }

  /** One move from a good state loses nothing exactly when it is clean, and a clean move leads to a good state. */
  lemma MoveExactly<T>(s: Shared<T>, move: Move<T>)
    requires Good(s)
    ensures Intact(Apply(s, move)) <==> Clean(s, move)
    ensures Clean(s, move) ==> Good(Apply(s, move))
  {
    match move
    case Begin(t, val) =>
      RangeKept(s, move);
      assert Waiting(Apply(s, move)) == Waiting(s);
    case Produce(t) => ProducerExactly(s, t);
    case Consume => ConsumerKeepsGood(s);
  }

  function StateAt<T>(buffer: seq<T>, moves: seq<Move<T>>, k: nat): (r: Shared<T>)
    requires |buffer| > 0 && k <= |moves|
    ensures |r.buffer| == |buffer|
  {
    Run(Fresh(buffer), moves[..k])
  }

  ghost predicate AllIntact<T>(buffer: seq<T>, moves: seq<Move<T>>)
    requires |buffer| > 0
  {
    forall k :: 0 <= k <= |moves| ==> Intact(StateAt(buffer, moves, k))
  }

  ghost predicate AllClean<T>(buffer: seq<T>, moves: seq<Move<T>>)
    requires |buffer| > 0
  {
    forall k {:trigger StateAt(buffer, moves, k)} ::
      0 <= k < |moves| ==> Clean(StateAt(buffer, moves, k), moves[k])
  }

  lemma RunSnoc<T>(s: Shared<T>, moves: seq<Move<T>>, move: Move<T>)
    requires |s.buffer| > 0
    ensures Run(s, moves + [move]) == Apply(Run(s, moves), move)
  {
    assert (moves + [move])[..|moves|] == moves;
  }

  lemma NextState<T>(buffer: seq<T>, moves: seq<Move<T>>, k: nat)
    requires |buffer| > 0 && k < |moves|
    ensures StateAt(buffer, moves, k + 1) == Apply(StateAt(buffer, moves, k), moves[k])
  {
    RunSnoc(Fresh(buffer), moves[..k], moves[k]);
    assert moves[..k] + [moves[k]] == moves[..k + 1];
  }

  /** Good so far, as long as every move was clean or every state was intact. */
  lemma {:induction false} GoodSoFar<T>(buffer: seq<T>, moves: seq<Move<T>>, k: nat)
    requires |buffer| > 0 && k <= |moves| && (AllIntact(buffer, moves) || AllClean(buffer, moves))
    ensures Good(StateAt(buffer, moves, k))
  {
    if k == 0 {
      assert moves[..0] == [];
      assert Waiting(Fresh(buffer)) == [];
    } else {
      GoodSoFar(buffer, moves, k - 1);
      NextState(buffer, moves, k - 1);
      MoveExactly(StateAt(buffer, moves, k - 1), moves[k - 1]);
    }
  }

  /** For every run of any number of producers: nothing is lost at any time exactly when every move was clean. */
  lemma NothingLostExactly<T>(buffer: seq<T>, moves: seq<Move<T>>)
    requires |buffer| > 0
    ensures AllIntact(buffer, moves) <==> AllClean(buffer, moves)
  {
    if AllIntact(buffer, moves) {
      forall k | 0 <= k < |moves| ensures Clean(StateAt(buffer, moves, k), moves[k]) {
        GoodSoFar(buffer, moves, k);
        NextState(buffer, moves, k);
        MoveExactly(StateAt(buffer, moves, k), moves[k]);
      }
    }
    if AllClean(buffer, moves) {
      forall k | 0 <= k <= |moves| ensures Intact(StateAt(buffer, moves, k)) {
        GoodSoFar(buffer, moves, k);
      }
    }
  }

  /** tryPush gives up exactly on a ring with capacity - 1 values waiting, if the write index it loaded is still the
      present one; tryPop gives up exactly on an empty ring. */
  lemma RefusalsAreHonest<T>(s: Shared<T>, t: nat)
    requires Good(s)
    ensures var p := ProducerAt(s, t); p.PushLoaded? && p.tail == s.write ==>
              (ProducerAt(Apply(s, Produce(t)), t).PushIdle? <==> |Waiting(s)| == |s.buffer| - 1)
    ensures s.consumer.PopLoaded? ==> (Apply(s, Consume).consumer.PopIdle? <==> Waiting(s) == [])
  {
    IncrementIs(s.write, |s.buffer|);
  }

  // ---------------------------------------------------------------- arguments and results

  /** What the tryPush that producer `t` began last was called with. */
  function Argument<T>(buffer: seq<T>, moves: seq<Move<T>>, t: nat): Option<T>
    requires |buffer| > 0
  {
    if moves == [] then None
    else
      var before, move := moves[..|moves| - 1], moves[|moves| - 1];
      if move.Begin? && move.t == t && ProducerAt(Run(Fresh(buffer), before), t).PushIdle? then Some(move.val)
      else Argument(buffer, before, t)
  }

  /** The arguments of the calls that have stored the write index, in that order. */
  function AcceptedArguments<T>(buffer: seq<T>, moves: seq<Move<T>>): seq<Option<T>>
    requires |buffer| > 0
  {
    if moves == [] then []
    else
      var before, move := moves[..|moves| - 1], moves[|moves| - 1];
      if move.Produce? && ProducerAt(Run(Fresh(buffer), before), move.t).PushStoring?
      then AcceptedArguments(buffer, before) + [Argument(buffer, before, move.t)]
      else AcceptedArguments(buffer, before)
  }

  lemma KeepsCarrying<T>(s: Shared<T>, move: Move<T>, t: nat)
    requires |s.buffer| > 0
    ensures var p, p' := ProducerAt(s, t), ProducerAt(Apply(s, move), t);
            !p'.PushIdle? ==>
              if p.PushIdle? then move.Begin? && move.t == t && p'.val == move.val else p'.val == p.val
  {
  }

  /** Under every interleaving a tryPush keeps the value it was called with until it returns. */
  lemma {:induction false} EveryCallCarriesItsOwn<T>(buffer: seq<T>, moves: seq<Move<T>>, t: nat)
    requires |buffer| > 0
    ensures var p := ProducerAt(Run(Fresh(buffer), moves), t);
            !p.PushIdle? ==> Some(p.val) == Argument(buffer, moves, t)
  {
    if moves != [] {
      EveryCallCarriesItsOwn(buffer, moves[..|moves| - 1], t);
      KeepsCarrying(Run(Fresh(buffer), moves[..|moves| - 1]), moves[|moves| - 1], t);
    }
  }

  lemma StoreAppends<T>(s: Shared<T>, move: Move<T>)
    requires |s.buffer| > 0
    ensures Apply(s, move).accepted
         == if move.Produce? && ProducerAt(s, move.t).PushStoring? then s.accepted + [ProducerAt(s, move.t).val]
            else s.accepted
  {
  }

  /** Under every interleaving what was accepted is, in order, what the calls that returned true were called with. */
  lemma {:induction false} AcceptedIsArguments<T>(buffer: seq<T>, moves: seq<Move<T>>)
    requires |buffer| > 0
    ensures Wrapped(Run(Fresh(buffer), moves).accepted) == AcceptedArguments(buffer, moves)
  {
    if moves != [] {
      var before, move := moves[..|moves| - 1], moves[|moves| - 1];
      AcceptedIsArguments(buffer, before);
      StoreAppends(Run(Fresh(buffer), before), move);
      if move.Produce? {
        EveryCallCarriesItsOwn(buffer, before, move.t);
      }
    }
  }

  // ---------------------------------------------------------------- calls that do not overlap

  /** Between loading and storing the write index. */
  predicate Inside<T>(p: Producer<T>) { p.PushLoaded? || p.PushWriting? || p.PushStoring? }

  ghost predicate Exclusive<T>(s: Shared<T>) {
    forall t, u :: Inside(ProducerAt(s, t)) && Inside(ProducerAt(s, u)) ==> t == u
  }

  ghost predicate AllExclusive<T>(buffer: seq<T>, moves: seq<Move<T>>)
    requires |buffer| > 0
  {
    forall k :: 0 <= k <= |moves| ==> Exclusive(StateAt(buffer, moves, k))
  }

  /** What a producer inside relies on, as long as nobody else is inside. */
  ghost predicate Relies<T>(s: Shared<T>, p: Producer<T>) {
    match p
    case PushLoaded(_, tail) => tail == s.write
    case PushWriting(_, tail, next) => tail == s.write && next != s.read
    case PushStoring(val, tail, next) =>
      tail == s.write && next != s.read && tail < |s.buffer| && s.buffer[tail] == val
    case _ => true
  }

  ghost predicate Undisturbed<T>(s: Shared<T>) { forall t :: Relies(s, ProducerAt(s, t)) }

  lemma UndisturbedIsClean<T>(s: Shared<T>, move: Move<T>)
    requires Good(s) && Undisturbed(s)
    ensures Clean(s, move)
  {
    if move.Produce? {
      assert Relies(s, ProducerAt(s, move.t));
    }
  }

  lemma ProducerStaysUndisturbed<T>(s: Shared<T>, t: nat)
    requires Good(s) && Undisturbed(s) && Exclusive(s)
    ensures Exclusive(ProducerMove(s, t)) ==> Undisturbed(ProducerMove(s, t))
  {
    var r := ProducerMove(s, t);
    assert Relies(s, ProducerAt(s, t)) && InRange(ProducerAt(s, t), |s.buffer|);
    if Exclusive(r) {
      forall u ensures Relies(r, ProducerAt(r, u)) {
        assert Relies(s, ProducerAt(s, u));
      }
    }
  }

  /** Reading on never takes the room away that a producer inside has seen. */
  lemma ConsumerStaysUndisturbed<T>(s: Shared<T>)
    requires Good(s) && Undisturbed(s)
    ensures Undisturbed(ConsumerMove(s))
  {
    var r := ConsumerMove(s);
    forall u ensures Relies(r, ProducerAt(r, u)) {
      assert Relies(s, ProducerAt(s, u)) && InRange(ProducerAt(s, u), |s.buffer|);
      IncrementIs(s.read, |s.buffer|);
      IncrementIs(s.write, |s.buffer|);
    }
  }

  lemma BeginStaysUndisturbed<T>(s: Shared<T>, t: nat, val: T)
    requires Undisturbed(s) && |s.buffer| > 0
    ensures Undisturbed(Apply(s, Begin(t, val)))
  {
    var r := Apply(s, Begin(t, val));
    forall u ensures Relies(r, ProducerAt(r, u)) {
      assert Relies(s, ProducerAt(s, u));
    }
  }

  lemma MoveStaysUndisturbed<T>(s: Shared<T>, move: Move<T>)
    requires Good(s) && Undisturbed(s) && Exclusive(s) && Exclusive(Apply(s, move))
    ensures Undisturbed(Apply(s, move))
  {
    match move
    case Begin(t, val) => BeginStaysUndisturbed(s, t, val);
    case Produce(t) => ProducerStaysUndisturbed(s, t);
    case Consume => ConsumerStaysUndisturbed(s);
  }

  lemma {:induction false} UndisturbedSoFar<T>(buffer: seq<T>, moves: seq<Move<T>>, k: nat)
    requires |buffer| > 0 && k <= |moves| && AllExclusive(buffer, moves)
    ensures Good(StateAt(buffer, moves, k)) && Undisturbed(StateAt(buffer, moves, k))
  {
    if k == 0 {
      assert moves[..0] == [];
      assert Waiting(Fresh(buffer)) == [];
    } else {
      var s := StateAt(buffer, moves, k - 1);
      UndisturbedSoFar(buffer, moves, k - 1);
      NextState(buffer, moves, k - 1);
      UndisturbedIsClean(s, moves[k - 1]);
      MoveExactly(s, moves[k - 1]);
      MoveStaysUndisturbed(s, moves[k - 1]);
    }
  }

  /** If no two calls of tryPush ever overlap between loading and storing the write index, nothing is ever lost. */
  lemma ExclusiveCallsLoseNothing<T>(buffer: seq<T>, moves: seq<Move<T>>)
    requires |buffer| > 0 && AllExclusive(buffer, moves)
    ensures AllIntact(buffer, moves)
  {
    forall k | 0 <= k <= |moves| ensures Intact(StateAt(buffer, moves, k)) {
      UndisturbedSoFar(buffer, moves, k);
    }
  }

  // ---------------------------------------------------------------- calls that do

  lemma Extend<T>(buffer: seq<T>, moves: seq<Move<T>>, from: Shared<T>, move: Move<T>, to: Shared<T>)
    returns (more: seq<Move<T>>)
    requires |buffer| > 0 && Run(Fresh(buffer), moves) == from && Apply(from, move) == to
    ensures Run(Fresh(buffer), more) == to && more == moves + [move]
    ensures AllClean(buffer, moves) && Clean(from, move) ==> AllClean(buffer, more)
  {
    more := moves + [move];
    RunSnoc(Fresh(buffer), moves, move);
    if AllClean(buffer, moves) && Clean(from, move) {
      forall k | 0 <= k < |more| ensures Clean(StateAt(buffer, more, k), more[k]) {
        assert more[..k] == moves[..k] && moves[..|moves|] == moves;
        assert StateAt(buffer, more, k) == StateAt(buffer, moves, k);
      }
    }
  }

  /** Two producers on an empty ring of three slots. */
  function Pair(buffer: seq<int>, write: nat, p: Producer<int>, q: Producer<int>, accepted: seq<int>): Shared<int> {
    Shared(buffer, write, 0, map[0 := p, 1 := q], PopIdle, accepted, [])
  }

  const THREE: seq<int> := [0, 0, 0]

  lemma BothWrite() returns (moves: seq<Move<int>>)
    ensures Run(Fresh(THREE), moves) == Pair([7, 0, 0], 0, PushStoring(5, 0, 1), PushStoring(7, 0, 1), [])
  {
    var first := Fresh(THREE).(producers := map[0 := PushCalled(5)]);
    moves := Extend(THREE, [], Fresh(THREE), Begin(0, 5), first);
    moves := Extend(THREE, moves, first, Begin(1, 7), Pair(THREE, 0, PushCalled(5), PushCalled(7), []));
    moves := BothLoad(moves);
    var w := PushWriting(7, 0, 1);
    moves := Extend(THREE, moves, Pair(THREE, 0, PushWriting(5, 0, 1), w, []), Produce(0),
                    Pair([5, 0, 0], 0, PushStoring(5, 0, 1), w, []));
    moves := Extend(THREE, moves, Pair([5, 0, 0], 0, PushStoring(5, 0, 1), w, []), Produce(1),
                    Pair([7, 0, 0], 0, PushStoring(5, 0, 1), PushStoring(7, 0, 1), []));
  }

  lemma BothLoad(moves: seq<Move<int>>) returns (more: seq<Move<int>>)
    requires Run(Fresh(THREE), moves) == Pair(THREE, 0, PushCalled(5), PushCalled(7), [])
    ensures Run(Fresh(THREE), more) == Pair(THREE, 0, PushWriting(5, 0, 1), PushWriting(7, 0, 1), [])
  {
    more := Extend(THREE, moves, Pair(THREE, 0, PushCalled(5), PushCalled(7), []), Produce(0),
                   Pair(THREE, 0, PushLoaded(5, 0), PushCalled(7), []));
    more := Extend(THREE, more, Pair(THREE, 0, PushLoaded(5, 0), PushCalled(7), []), Produce(1),
                   Pair(THREE, 0, PushLoaded(5, 0), PushLoaded(7, 0), []));
    more := Extend(THREE, more, Pair(THREE, 0, PushLoaded(5, 0), PushLoaded(7, 0), []), Produce(0),
                   Pair(THREE, 0, PushWriting(5, 0, 1), PushLoaded(7, 0), []));
    more := Extend(THREE, more, Pair(THREE, 0, PushWriting(5, 0, 1), PushLoaded(7, 0), []), Produce(1),
                   Pair(THREE, 0, PushWriting(5, 0, 1), PushWriting(7, 0, 1), []));
  }

  /** Two overlapping calls both return true, and one of the two values is gone. */
  lemma OverlapCanLose() returns (moves: seq<Move<int>>)
    ensures var s := Run(Fresh(THREE), moves);
            s.accepted == [5, 7] && s.popped == [] && s.read < |s.buffer| && s.write < |s.buffer| && Waiting(s) == [7]
  {
    moves := BothWrite();
    var stored := Pair([7, 0, 0], 1, PushIdle, PushStoring(7, 0, 1), [5]);
    moves := Extend(THREE, moves, Pair([7, 0, 0], 0, PushStoring(5, 0, 1), PushStoring(7, 0, 1), []), Produce(0),
                    stored);
    moves := Extend(THREE, moves, stored, Produce(1), Pair([7, 0, 0], 1, PushIdle, PushIdle, [5, 7]));
  }

  /** Producer 0 has been told that slot 0 of a ring of two is free; producer 1 and the consumer go on meanwhile. */
  function Meanwhile(buffer: seq<int>, write: nat, read: nat, q: Producer<int>, c: Consumer<int>, accepted: seq<int>,
                     popped: seq<int>): Shared<int>
  {
    Shared(buffer, write, read, map[0 := PushWriting(9, 0, 1), 1 := q], c, accepted, popped)
  }

  const TWO: seq<int> := [0, 0]

  lemma LoadMeanwhile(moves: seq<Move<int>>, buffer: seq<int>, write: nat, val: int, accepted: seq<int>,
                      popped: seq<int>)
    returns (more: seq<Move<int>>)
    requires |buffer| == 2 && write < 2 && AllClean(TWO, moves)
    requires Run(Fresh(TWO), moves) == Meanwhile(buffer, write, write, PushCalled(val), PopIdle, accepted, popped)
    ensures more == moves + [Produce(1)] && AllClean(TWO, more) && !Exclusive(Run(Fresh(TWO), more))
    ensures Run(Fresh(TWO), more) == Meanwhile(buffer, write, write, PushLoaded(val, write), PopIdle, accepted, popped)
  {
    var s := Meanwhile(buffer, write, write, PushLoaded(val, write), PopIdle, accepted, popped);
    more := Extend(TWO, moves, Meanwhile(buffer, write, write, PushCalled(val), PopIdle, accepted, popped), Produce(1),
                   s);
    assert Inside(ProducerAt(s, 0)) && Inside(ProducerAt(s, 1));
  }

  lemma StoreMeanwhile(moves: seq<Move<int>>, buffer: seq<int>, write: nat, val: int, accepted: seq<int>,
                       popped: seq<int>)
    returns (more: seq<Move<int>>)
    requires |buffer| == 2 && write < 2 && AllClean(TWO, moves)
    requires Run(Fresh(TWO), moves)
          == Meanwhile(buffer, write, write, PushLoaded(val, write), PopIdle, accepted, popped)
    ensures moves <= more && AllClean(TWO, more)
    ensures Run(Fresh(TWO), more)
         == Meanwhile(buffer[write := val], 1 - write, write, PushIdle, PopIdle, accepted + [val], popped)
  {
    var at := (b, q) => Meanwhile(b, write, write, q, PopIdle, accepted, popped);
    more := Extend(TWO, moves, at(buffer, PushLoaded(val, write)), Produce(1),
                   at(buffer, PushWriting(val, write, 1 - write)));
    more := Extend(TWO, more, at(buffer, PushWriting(val, write, 1 - write)), Produce(1),
                   at(buffer[write := val], PushStoring(val, write, 1 - write)));
    more := Extend(TWO, more, at(buffer[write := val], PushStoring(val, write, 1 - write)), Produce(1),
                   Meanwhile(buffer[write := val], 1 - write, write, PushIdle, PopIdle, accepted + [val], popped));
  }

  /** The consumer takes the value that waits. */
  lemma PopMeanwhile(moves: seq<Move<int>>, buffer: seq<int>, read: nat, accepted: seq<int>, popped: seq<int>)
    returns (more: seq<Move<int>>)
    requires |buffer| == 2 && read < 2 && AllClean(TWO, moves)
    requires Run(Fresh(TWO), moves) == Meanwhile(buffer, 1 - read, read, PushIdle, PopIdle, accepted, popped)
    ensures moves <= more && AllClean(TWO, more)
    ensures Run(Fresh(TWO), more)
         == Meanwhile(buffer, 1 - read, 1 - read, PushIdle, PopIdle, accepted, popped + [buffer[read]])
  {
    var at := c => Meanwhile(buffer, 1 - read, read, PushIdle, c, accepted, popped);
    more := Extend(TWO, moves, at(PopIdle), Consume, at(PopCalled));
    more := Extend(TWO, more, at(PopCalled), Consume, at(PopLoaded(read)));
    more := Extend(TWO, more, at(PopLoaded(read)), Consume, at(PopReading(read)));
    more := Extend(TWO, more, at(PopReading(read)), Consume, at(PopStoring(read, buffer[read])));
    more := Extend(TWO, more, at(PopStoring(read, buffer[read])), Consume,
                   Meanwhile(buffer, 1 - read, 1 - read, PushIdle, PopIdle, accepted, popped + [buffer[read]]));
  }

  /** While producer 0 waits, producer 1 goes through with its call and the consumer takes the value. */
  lemma RoundMeanwhile(moves: seq<Move<int>>, buffer: seq<int>, write: nat, val: int, accepted: seq<int>,
                       popped: seq<int>)
    returns (loaded: seq<Move<int>>, more: seq<Move<int>>)
    requires |buffer| == 2 && write < 2 && AllClean(TWO, moves)
    requires Run(Fresh(TWO), moves) == Meanwhile(buffer, write, write, PushCalled(val), PopIdle, accepted, popped)
    ensures moves <= loaded <= more && AllClean(TWO, more) && !Exclusive(Run(Fresh(TWO), loaded))
    ensures Run(Fresh(TWO), more) == Meanwhile(buffer[write := val], 1 - write, 1 - write, PushIdle, PopIdle,
                                               accepted + [val], popped + [val])
  {
    loaded := LoadMeanwhile(moves, buffer, write, val, accepted, popped);
    more := StoreMeanwhile(loaded, buffer, write, val, accepted, popped);
    more := PopMeanwhile(more, buffer[write := val], write, accepted + [val], popped);
  }

  lemma ZeroWaits() returns (moves: seq<Move<int>>)
    ensures Run(Fresh(TWO), moves) == Meanwhile(TWO, 0, 0, PushCalled(5), PopIdle, [], []) && AllClean(TWO, moves)
  {
    var at := p => Fresh(TWO).(producers := map[0 := p, 1 := PushCalled(5)]);
    var one := Fresh(TWO).(producers := map[1 := PushCalled(5)]);
    moves := Extend(TWO, [], Fresh(TWO), Begin(1, 5), one);
    moves := Extend(TWO, moves, one, Begin(0, 9), at(PushCalled(9)));
    moves := Extend(TWO, moves, at(PushCalled(9)), Produce(0), at(PushLoaded(9, 0)));
    moves := Extend(TWO, moves, at(PushLoaded(9, 0)), Produce(0), at(PushWriting(9, 0, 1)));
  }

  lemma ZeroGoesOn(moves: seq<Move<int>>, buffer: seq<int>, accepted: seq<int>, popped: seq<int>)
    returns (more: seq<Move<int>>)
    requires |buffer| == 2 && AllClean(TWO, moves)
    requires Run(Fresh(TWO), moves) == Meanwhile(buffer, 0, 0, PushIdle, PopIdle, accepted, popped)
    ensures moves <= more && AllClean(TWO, more)
    ensures Run(Fresh(TWO), more).accepted == accepted + [9]
  {
    var at := (b, w, p, a) => Shared(b, w, 0, map[0 := p, 1 := PushIdle], PopIdle, a, popped);
    var written := at(buffer[0 := 9], 0, PushStoring(9, 0, 1), accepted);
    more := Extend(TWO, moves, Meanwhile(buffer, 0, 0, PushIdle, PopIdle, accepted, popped), Produce(0), written);
    more := Extend(TWO, more, written, Produce(0), at(buffer[0 := 9], 1, PushIdle, accepted + [9]));
  }

  lemma BeginMeanwhile(moves: seq<Move<int>>, buffer: seq<int>, write: nat, val: int, accepted: seq<int>)
    returns (more: seq<Move<int>>)
    requires |buffer| == 2 && write < 2 && AllClean(TWO, moves)
    requires Run(Fresh(TWO), moves) == Meanwhile(buffer, write, write, PushIdle, PopIdle, accepted, accepted)
    ensures moves <= more && AllClean(TWO, more)
    ensures Run(Fresh(TWO), more) == Meanwhile(buffer, write, write, PushCalled(val), PopIdle, accepted, accepted)
  {
    more := Extend(TWO, moves, Meanwhile(buffer, write, write, PushIdle, PopIdle, accepted, accepted), Begin(1, val),
                   Meanwhile(buffer, write, write, PushCalled(val), PopIdle, accepted, accepted));
  }

  lemma FirstRound() returns (loaded: seq<Move<int>>, moves: seq<Move<int>>)
    ensures loaded <= moves && AllClean(TWO, moves) && !Exclusive(Run(Fresh(TWO), loaded))
    ensures Run(Fresh(TWO), moves) == Meanwhile(TWO[0 := 5], 1, 1, PushIdle, PopIdle, [5], [5])
  {
    moves := ZeroWaits();
    loaded, moves := RoundMeanwhile(moves, TWO, 0, 5, [], []);
    assert [] + [5] == [5];
  }

  lemma SecondRound(moves: seq<Move<int>>) returns (more: seq<Move<int>>)
    requires AllClean(TWO, moves)
    requires Run(Fresh(TWO), moves) == Meanwhile(TWO[0 := 5], 1, 1, PushIdle, PopIdle, [5], [5])
    ensures moves <= more && AllClean(TWO, more)
    ensures Run(Fresh(TWO), more) == Meanwhile(TWO[0 := 5][1 := 6], 0, 0, PushIdle, PopIdle, [5] + [6], [5] + [6])
  {
    var called := BeginMeanwhile(moves, TWO[0 := 5], 1, 6, [5]);
    var loaded;
    loaded, more := RoundMeanwhile(called, TWO[0 := 5], 1, 6, [5], [5]);
  }

  /** That calls do not overlap is enough but not needed: while producer 0 holds an index, producer 1 and the consumer
      can go once round the ring, so that the index is right again.  All three values are accepted, none is lost. */
  lemma OverlapCanBeHarmless() returns (moves: seq<Move<int>>)
    ensures AllIntact(TWO, moves) && !AllExclusive(TWO, moves) && Run(Fresh(TWO), moves).accepted == [5, 6, 9]
  {
    var loaded;
    loaded, moves := FirstRound();
    moves := SecondRound(moves);
    moves := ZeroGoesOn(moves, TWO[0 := 5][1 := 6], [5] + [6], [5] + [6]);
    NothingLostExactly(TWO, moves);
    assert moves[..|loaded|] == loaded;
    assert !Exclusive(StateAt(TWO, moves, |loaded|));
  }
}
