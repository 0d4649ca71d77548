/** The unbounded queue with one lock for its tail and one for its head, one step per shared load or store, lock or
    unlock, allocation or deletion.  Nodes are numbered; 0 is the null pointer; a deleted node leaves the heap, and
    touching a node that is not in the heap raises `fault`. */
module TwoLockQueues {
  import opened Options
  import opened LinkedNodes
  import opened Sequences

  /** Where a thread is inside enqueue or dequeue, with its local variables. */
  datatype Local<T> =
    | Outside
    | EnqueueReady(node: nat, data: T)           // the new node is filled in; the tail lock is next
    | EnqueueLocked(node: nat, data: T)
    | EnqueueLinked(node: nat)                   // between the two tail writes
    | EnqueueStored
    | DequeueReady
    | DequeueLocked
    | DequeueHead(current: nat)
    | DequeueNext(current: nat, newHead: nat)
    | DequeueData(current: nat, newHead: nat, data: T)
    | DequeueSwapped(current: nat, data: T)
    | DequeueUnlocked(current: nat, data: T)     // the old dummy is deleted outside the lock

  datatype Queue<T> = Queue(
    heap: Heap<T>, nextFree: nat,
    head: nat, tail: nat,
    headLock: Option<nat>, tailLock: Option<nat>,
    locals: map<nat, Local<T>>,
    fault: bool,
    // history
    enqueued: seq<T>,      // in the order in which the nodes were linked
    dequeued: seq<T>,      // in the order in which the head moved
    nodes: seq<nat>)       // the list from the head

  /** A thread begins a call, or takes the next step of the call it is in. */
  datatype Step<T> = Enqueue(t: nat, data: T) | Dequeue(t: nat) | Go(t: nat)

  function LocalOf<T>(s: Queue<T>, t: nat): Local<T> { if t in s.locals then s.locals[t] else Outside }

  function At<T>(s: Queue<T>, t: nat, l: Local<T>): Queue<T> { s.(locals := s.locals[t := l]) }

  function Empty<T>(): Queue<T> {
    Queue(map[1 := Node(None, 0)], 2, 1, 1, None, None, map[], false, [], [], [1])
  }

  function Go1<T>(s: Queue<T>, t: nat): Queue<T> {
    match LocalOf(s, t)
    case Outside => s
    case EnqueueReady(n, x) => if s.tailLock.None? then At(s, t, EnqueueLocked(n, x)).(tailLock := Some(t)) else s
    case EnqueueLocked(n, _) => LinkNode(s, t, n)
    case EnqueueLinked(n) => At(s, t, EnqueueStored).(tail := n)
    case EnqueueStored => At(s, t, Outside).(tailLock := None)
    case DequeueReady => if s.headLock.None? then At(s, t, DequeueLocked).(headLock := Some(t)) else s
    case DequeueLocked => At(s, t, DequeueHead(s.head))
    case DequeueHead(c) => if c in s.heap then At(s, t, DequeueNext(c, s.heap[c].next)) else s.(fault := true)
    case DequeueNext(c, n) =>
      if n == 0 then At(s, t, Outside).(headLock := None)
      else if n in s.heap && s.heap[n].data.Some? then At(s, t, DequeueData(c, n, s.heap[n].data.value))
      else s.(fault := true)
    case DequeueData(c, n, x) => MoveHead(s, t, c, n, x)
    case DequeueSwapped(c, x) => At(s, t, DequeueUnlocked(c, x)).(headLock := None)
    case DequeueUnlocked(c, x) => if c in s.heap then At(s, t, Outside).(heap := s.heap - {c}) else s.(fault := true)
  }

  /** The first tail write: through the tail pointer into the node it points to. */
  function LinkNode<T>(s: Queue<T>, t: nat, n: nat): Queue<T> {
    if s.tail in s.heap && n in s.heap && s.heap[n].data.Some?
    then At(s, t, EnqueueLinked(n)).(heap := s.heap[s.tail := s.heap[s.tail].(next := n)],
                                     enqueued := s.enqueued + [s.heap[n].data.value], nodes := s.nodes + [n])
    else s.(fault := true)
  }

  function MoveHead<T>(s: Queue<T>, t: nat, c: nat, n: nat, x: T): Queue<T> {
    At(s, t, DequeueSwapped(c, x)).(head := n, dequeued := s.dequeued + [x],
                                    nodes := if s.nodes == [] then [] else s.nodes[1..])
  }

  /** A call begins only outside a call; otherwise the step leaves the state alone, so any sequence is a run. */
  function Apply<T>(s: Queue<T>, step: Step<T>): Queue<T> {
    match step
    case Enqueue(t, x) =>
      if LocalOf(s, t).Outside?
      then At(s, t, EnqueueReady(s.nextFree, x)).(heap := s.heap[s.nextFree := Node(Some(x), 0)],
                                                         nextFree := s.nextFree + 1)
      else s
    case Dequeue(t) => if LocalOf(s, t).Outside? then At(s, t, DequeueReady) else s
    case Go(t) => Go1(s, t)
  }

  function Run<T>(s: Queue<T>, steps: seq<Step<T>>): Queue<T> {
    if steps == [] then s else Apply(Run(s, steps[..|steps| - 1]), steps[|steps| - 1])
  }

  // ---------------------------------------------------------------- the invariant

  ghost predicate IsList<T>(heap: Heap<T>, head: nat, nodes: seq<nat>) {
    nodes != [] && head == nodes[0] && IsChain(heap, nodes)
  }

  /** What was enqueued is what was dequeued, then the values of the list after its dummy. */
  ghost predicate Contains<T>(s: Queue<T>) {
    && |s.enqueued| == |s.dequeued| + |s.nodes| - 1
    && s.dequeued <= s.enqueued
    && (forall i :: 0 < i < |s.nodes| ==>
          s.nodes[i] in s.heap && s.heap[s.nodes[i]].data == Some(s.enqueued[|s.dequeued| + i - 1]))
  }

  ghost predicate Numbered<T>(s: Queue<T>) { 0 < s.nextFree && forall n :: n in s.heap ==> 0 < n < s.nextFree }

  /** The node only this thread may touch: not linked yet, or unlinked and about to be deleted. */
  function Private<T>(l: Local<T>): nat {
    match l
    case EnqueueReady(n, _) => n
    case EnqueueLocked(n, _) => n
    case DequeueSwapped(c, _) => c
    case DequeueUnlocked(c, _) => c
    case _ => 0
  }

  function Mine<T>(s: Queue<T>, t: nat): nat { Private(LocalOf(s, t)) }

  ghost predicate MineOk<T>(s: Queue<T>, t: nat) {
    Mine(s, t) != 0 ==> Mine(s, t) in s.heap && Mine(s, t) !in s.nodes
  }

  ghost predicate Apart<T>(s: Queue<T>, t: nat, u: nat) {
    t != u && Mine(s, t) != 0 ==> Mine(s, t) != Mine(s, u)
  }

  ghost predicate PrivateOk<T>(s: Queue<T>) {
    (forall t :: MineOk(s, t)) && (forall t, u :: Apart(s, t, u))
  }

  ghost predicate LocalOk<T>(s: Queue<T>, t: nat)
    requires s.nodes != []
  {
    match LocalOf(s, t)
    case Outside => true
    case EnqueueReady(n, x) => n in s.heap && s.heap[n] == Node(Some(x), 0)
    case EnqueueLocked(n, x) => s.tailLock == Some(t) && n in s.heap && s.heap[n] == Node(Some(x), 0)
    case EnqueueLinked(n) => s.tailLock == Some(t) && n == s.nodes[|s.nodes| - 1]
    case EnqueueStored => s.tailLock == Some(t)
    case DequeueReady => true
    case DequeueLocked => s.headLock == Some(t)
    case DequeueHead(c) => s.headLock == Some(t) && c == s.head
    case DequeueNext(c, n) => s.headLock == Some(t) && c == s.head && (n != 0 ==> |s.nodes| > 1 && n == s.nodes[1])
    case DequeueData(c, n, x) =>
      s.headLock == Some(t) && c == s.head && |s.nodes| > 1 && n == s.nodes[1]
      && |s.dequeued| < |s.enqueued| && x == s.enqueued[|s.dequeued|]
    case DequeueSwapped(c, x) => s.headLock == Some(t) && c != 0
    case DequeueUnlocked(c, x) => c != 0
  }

  /** The tail pointer may lag, and even dangle, but only between the two tail writes of an enqueue. */
  ghost predicate TailOk<T>(s: Queue<T>)
    requires s.nodes != []
  {
    (s.tailLock.Some? && LocalOf(s, s.tailLock.value).EnqueueLinked?) || s.tail == s.nodes[|s.nodes| - 1]
  }

  ghost predicate Stored<T>(s: Queue<T>) {
    !s.fault && IsList(s.heap, s.head, s.nodes) && Contains(s) && Numbered(s)
  }

  ghost predicate Inv<T>(s: Queue<T>) {
    && Stored(s) && PrivateOk(s) && TailOk(s)
    && (forall t :: LocalOk(s, t))
  }

  /** The other threads do not notice a step of thread `t` that leaves alone their own nodes, the locks they hold, and
      the end of the list that such a lock protects, and takes over no node of theirs. */
  lemma OthersKept<T>(s: Queue<T>, r: Queue<T>, t: nat)
    requires Inv(s) && r.nodes != [] && LocalOk(r, t) && MineOk(r, t)
    requires forall u :: u != t ==> LocalOf(r, u) == LocalOf(s, u)
    requires forall n :: n in s.heap && n !in s.nodes && n != Mine(s, t) ==> n in r.heap && r.heap[n] == s.heap[n]
    requires forall n :: n in r.nodes ==> n in s.nodes || (n == Mine(s, t) && n != 0)
    requires Mine(r, t) == 0 || Mine(r, t) == Mine(s, t) || Mine(r, t) in s.nodes || Mine(r, t) !in s.heap
    requires s.tailLock.Some? && s.tailLock != Some(t) ==>
               r.tailLock == s.tailLock && r.nodes[|r.nodes| - 1] == s.nodes[|s.nodes| - 1]
    requires s.headLock.Some? && s.headLock != Some(t) ==>
               && r.headLock == s.headLock && r.head == s.head && r.dequeued == s.dequeued && s.enqueued <= r.enqueued
               && (|s.nodes| > 1 ==> |r.nodes| > 1 && r.nodes[1] == s.nodes[1])
    ensures PrivateOk(r) && forall u :: LocalOk(r, u)
  {
    forall u ensures LocalOk(r, u) && MineOk(r, u) {
      assert LocalOk(s, u) && MineOk(s, u) && Apart(s, t, u);
    }
    forall u, v ensures Apart(r, u, v) {
      assert Apart(s, u, v) && MineOk(s, u) && MineOk(s, v);
    }
  }

  /** A step that only locks, unlocks or reads, and moves no more than the tail pointer. */
  lemma LocksKept<T>(s: Queue<T>, r: Queue<T>, t: nat)
    requires Inv(s)
    requires r == s.(locals := r.locals, headLock := r.headLock, tailLock := r.tailLock, tail := r.tail)
    requires LocalOk(r, t) && TailOk(r)
    requires forall u :: u != t ==> LocalOf(r, u) == LocalOf(s, u)
    requires Mine(r, t) == 0 || Mine(r, t) == Mine(s, t)
    requires s.tailLock.Some? && s.tailLock != Some(t) ==> r.tailLock == s.tailLock
    requires s.headLock.Some? && s.headLock != Some(t) ==> r.headLock == s.headLock
    ensures Inv(r)
  {
    assert MineOk(s, t);
    OthersKept(s, r, t);
  }

  lemma EnqueueKeepsStored<T>(s: Queue<T>, t: nat, x: T)
    requires Inv(s) && LocalOf(s, t).Outside?
    ensures Stored(Apply(s, Enqueue(t, x)))
  {
  }

  lemma EnqueueKeepsInv<T>(s: Queue<T>, t: nat, x: T)
    requires Inv(s) && LocalOf(s, t).Outside?
    ensures Inv(Apply(s, Enqueue(t, x)))
  {
    EnqueueKeepsStored(s, t, x);
    OthersKept(s, Apply(s, Enqueue(t, x)), t);
  }

  lemma DequeueKeepsInv<T>(s: Queue<T>, t: nat)
    requires Inv(s) && LocalOf(s, t).Outside?
    ensures Inv(Apply(s, Dequeue(t)))
  {
    var r := Apply(s, Dequeue(t));
    LocksKept(s, r, t);
  }

  lemma LinkKeepsStored<T>(s: Queue<T>, t: nat)
    requires Inv(s) && LocalOf(s, t).EnqueueLocked?
    ensures Stored(Go1(s, t)) && Go1(s, t).nodes == s.nodes + [Mine(s, t)]
  {
    assert LocalOk(s, t) && MineOk(s, t);
    assert s.tail == s.nodes[|s.nodes| - 1];
    ChainSnoc(s.heap, s.nodes, Mine(s, t));
  }

  lemma LinkKeepsInv<T>(s: Queue<T>, t: nat)
    requires Inv(s) && LocalOf(s, t).EnqueueLocked?
    ensures Inv(Go1(s, t))
  {
    LinkKeepsStored(s, t);
    assert LocalOk(s, t) && MineOk(s, t);
    OthersKept(s, Go1(s, t), t);
  }

  lemma LockTailKeepsInv<T>(s: Queue<T>, t: nat)
    requires Inv(s) && LocalOf(s, t).EnqueueReady?
    ensures Inv(Go1(s, t))
  {
    var r := Go1(s, t);
    assert LocalOk(s, t) && MineOk(s, t);
    LocksKept(s, r, t);
  }

  lemma StoreTailKeepsInv<T>(s: Queue<T>, t: nat)
    requires Inv(s) && LocalOf(s, t).EnqueueLinked?
    ensures Inv(Go1(s, t))
  {
    var r := Go1(s, t);
    assert LocalOk(s, t) && MineOk(s, t);
    LocksKept(s, r, t);
  }

  lemma UnlockTailKeepsInv<T>(s: Queue<T>, t: nat)
    requires Inv(s) && LocalOf(s, t).EnqueueStored?
    ensures Inv(Go1(s, t))
  {
    var r := Go1(s, t);
    assert LocalOk(s, t) && MineOk(s, t);
    LocksKept(s, r, t);
  }

  lemma LockHeadKeepsInv<T>(s: Queue<T>, t: nat)
    requires Inv(s)
    requires LocalOf(s, t).DequeueReady? || LocalOf(s, t).DequeueLocked?
    ensures Inv(Go1(s, t))
  {
    var r := Go1(s, t);
    assert LocalOk(s, t) && MineOk(s, t);
    LocksKept(s, r, t);
  }

  lemma ReadLinkKeepsInv<T>(s: Queue<T>, t: nat)
    requires Inv(s)
    requires LocalOf(s, t).DequeueHead?
    ensures Inv(Go1(s, t))
  {
    var r := Go1(s, t);
    assert LocalOk(s, t) && MineOk(s, t);
    LocksKept(s, r, t);
  }

  lemma ReadDataKeepsInv<T>(s: Queue<T>, t: nat)
    requires Inv(s)
    requires LocalOf(s, t).DequeueNext?
    ensures Inv(Go1(s, t))
  {
    var r := Go1(s, t);
    assert LocalOk(s, t) && MineOk(s, t);
    LocksKept(s, r, t);
  }

  lemma MoveHeadKeepsStored<T>(s: Queue<T>, t: nat)
    requires Inv(s) && LocalOf(s, t).DequeueData?
    ensures Stored(Go1(s, t)) && |s.nodes| > 1 && Go1(s, t).nodes == s.nodes[1..]
  {
    assert LocalOk(s, t);
    ChainTail(s.heap, s.nodes);
  }

  lemma MoveHeadKeepsInv<T>(s: Queue<T>, t: nat)
    requires Inv(s) && LocalOf(s, t).DequeueData?
    ensures Inv(Go1(s, t))
  {
    MoveHeadKeepsStored(s, t);
    assert LocalOk(s, t) && MineOk(s, t);
    OthersKept(s, Go1(s, t), t);
  }

  lemma UnlockHeadKeepsInv<T>(s: Queue<T>, t: nat)
    requires Inv(s) && LocalOf(s, t).DequeueSwapped?
    ensures Inv(Go1(s, t))
  {
    var r := Go1(s, t);
    assert LocalOk(s, t) && MineOk(s, t);
    LocksKept(s, r, t);
  }

  lemma FreeKeepsStored<T>(s: Queue<T>, t: nat)
    requires Inv(s) && LocalOf(s, t).DequeueUnlocked?
    ensures Stored(Go1(s, t)) && Go1(s, t).nodes == s.nodes
  {
    assert LocalOk(s, t) && MineOk(s, t);
  }

  lemma FreeKeepsInv<T>(s: Queue<T>, t: nat)
    requires Inv(s) && LocalOf(s, t).DequeueUnlocked?
    ensures Inv(Go1(s, t))
  {
    FreeKeepsStored(s, t);
    assert LocalOk(s, t) && MineOk(s, t);
    OthersKept(s, Go1(s, t), t);
  }

  lemma StepKeepsInv<T>(s: Queue<T>, step: Step<T>)
    requires Inv(s)
    ensures Inv(Apply(s, step))
  {
    if step.Enqueue? {
      if LocalOf(s, step.t).Outside? {
        EnqueueKeepsInv(s, step.t, step.data);
      }
    } else if step.Dequeue? {
      if LocalOf(s, step.t).Outside? {
        DequeueKeepsInv(s, step.t);
      }
    } else {
      match LocalOf(s, step.t)
      case Outside =>
      case EnqueueReady(_, _) => LockTailKeepsInv(s, step.t);
      case EnqueueLocked(_, _) => LinkKeepsInv(s, step.t);
      case EnqueueLinked(_) => StoreTailKeepsInv(s, step.t);
      case EnqueueStored => UnlockTailKeepsInv(s, step.t);
      case DequeueReady => LockHeadKeepsInv(s, step.t);
      case DequeueLocked => LockHeadKeepsInv(s, step.t);
      case DequeueHead(_) => ReadLinkKeepsInv(s, step.t);
      case DequeueNext(_, _) => ReadDataKeepsInv(s, step.t);
      case DequeueData(_, _, _) => MoveHeadKeepsInv(s, step.t);
      case DequeueSwapped(_, _) => UnlockHeadKeepsInv(s, step.t);
      case DequeueUnlocked(_, _) => FreeKeepsInv(s, step.t);
    }
  }

  lemma {:induction false} RunKeepsInv<T>(steps: seq<Step<T>>)
    ensures Inv(Run(Empty<T>(), steps))
  {
    if steps != [] {
      RunKeepsInv(steps[..|steps| - 1]);
      StepKeepsInv(Run(Empty<T>(), steps[..|steps| - 1]), steps[|steps| - 1]);
    }
  }

  // ---------------------------------------------------------------- the theorems

  /** The values behind the dummy node, read off the heap. */
  function Values<T>(heap: Heap<T>, nodes: seq<nat>): seq<Option<T>>
    requires forall i :: 0 <= i < |nodes| ==> nodes[i] in heap
  {
    seq(|nodes|, i requires 0 <= i < |nodes| => heap[nodes[i]].data)
  }

  /** In every interleaving of enqueues and dequeues: no node is touched after its deletion, the list from the head
      stays acyclic and null-terminated, and what was enqueued is exactly what was dequeued followed by what the
      list holds. */
  lemma EveryRunIsFifo<T>(steps: seq<Step<T>>)
    ensures var s := Run(Empty<T>(), steps);
            && !s.fault
            && IsList(s.heap, s.head, s.nodes)
            && s.dequeued <= s.enqueued
            && Wrapped(s.enqueued[|s.dequeued|..]) == Values(s.heap, s.nodes[1..])
  {
    RunKeepsInv(steps);
    var s := Run(Empty<T>(), steps);
    var rest := s.nodes[1..];
    assert forall i :: 0 <= i < |rest| ==> rest[i] == s.nodes[i + 1];
  }

  /** The abstract queue. */
  function Contents<T>(s: Queue<T>): seq<T> { if |s.dequeued| <= |s.enqueued| then s.enqueued[|s.dequeued|..] else [] }

  lemma LinkRefines<T>(s: Queue<T>, t: nat)
    requires Inv(s) && LocalOf(s, t).EnqueueLocked?
    ensures Contents(Go1(s, t)) == Contents(s) + [LocalOf(s, t).data]
  {
    assert LocalOk(s, t);
    AppendBeyond(s.enqueued, LocalOf(s, t).data, |s.dequeued|);
  }

  lemma MoveHeadRefines<T>(s: Queue<T>, t: nat)
    requires Inv(s) && LocalOf(s, t).DequeueData?
    ensures var l := LocalOf(s, t); var r := Go1(s, t);
            Contents(s) == [l.data] + Contents(r) && LocalOf(r, t) == DequeueSwapped(l.current, l.data)
  {
    assert LocalOk(s, t);
    DropFirst(s.enqueued, |s.dequeued|);
  }

  lemma OthersKeepContents<T>(s: Queue<T>, t: nat)
    requires !LocalOf(s, t).EnqueueLocked? && !LocalOf(s, t).DequeueData?
    ensures Contents(Go1(s, t)) == Contents(s)
  {
    var r := Go1(s, t);
    assert r.enqueued == s.enqueued && r.dequeued == s.dequeued;
  }

  /** Every step of every interleaving is a step of the abstract queue: linking appends the value of the enqueue under
      way, moving the head removes the front, which is what the dequeue under way returns, and nothing else changes
      the contents. */
  lemma StepsRefineFifo<T>(steps: seq<Step<T>>, step: Step<T>)
    ensures var s := Run(Empty<T>(), steps); var r := Apply(s, step); var l := LocalOf(s, step.t);
            if step.Go? && l.EnqueueLocked? then Contents(r) == Contents(s) + [l.data]
            else if step.Go? && l.DequeueData? then
              Contents(s) == [l.data] + Contents(r) && LocalOf(r, step.t) == DequeueSwapped(l.current, l.data)
            else Contents(r) == Contents(s)
  {
    RunKeepsInv(steps);
    var s := Run(Empty<T>(), steps);
    if step.Go? && LocalOf(s, step.t).EnqueueLocked? {
      LinkRefines(s, step.t);
    } else if step.Go? && LocalOf(s, step.t).DequeueData? {
      MoveHeadRefines(s, step.t);
    } else if step.Go? {
      OthersKeepContents(s, step.t);
    }
  }

  /** Dequeue finds the list empty exactly when everything linked by then has been taken. */
  lemma EmptyIsHonest<T>(steps: seq<Step<T>>, t: nat)
    requires LocalOf(Run(Empty<T>(), steps), t).DequeueHead?
    ensures var s := Run(Empty<T>(), steps); var l := LocalOf(Apply(s, Go(t)), t);
            l.DequeueNext? && (l.newHead == 0 <==> s.enqueued == s.dequeued)
  {
    RunKeepsInv(steps);
    var s := Run(Empty<T>(), steps);
    assert LocalOk(s, t);
    if |s.nodes| > 1 {
      assert s.heap[s.nodes[0]].next == s.nodes[1] && s.nodes[1] in s.heap;
    }
  }

  lemma RunSnoc<T>(s: Queue<T>, steps: seq<Step<T>>, step: Step<T>)
    ensures Run(s, steps + [step]) == Apply(Run(s, steps), step)
  {
    assert (steps + [step])[..|steps|] == steps;
  }

  // ---------------------------------------------------------------- arguments and results

  /** What the enqueue that thread `t` began last was called with. */
  function Argument<T>(steps: seq<Step<T>>, t: nat): Option<T> {
    if steps == [] then None
    else
      var before, step := steps[..|steps| - 1], steps[|steps| - 1];
      if step.Enqueue? && step.t == t && LocalOf(Run(Empty<T>(), before), t).Outside? then Some(step.data)
      else Argument(before, t)
  }

  /** The arguments of the enqueues whose nodes have been linked, in the order of the links. */
  function LinkedArguments<T>(steps: seq<Step<T>>): seq<Option<T>> {
    if steps == [] then []
    else
      var before, step := steps[..|steps| - 1], steps[|steps| - 1];
      if step.Go? && LocalOf(Run(Empty<T>(), before), step.t).EnqueueLocked?
      then LinkedArguments(before) + [Argument(before, step.t)]
      else LinkedArguments(before)
  }

  /** The front of the queue when thread `t` moved the head last. */
  function Front<T>(steps: seq<Step<T>>, t: nat): Option<T> {
    if steps == [] then None
    else
      var before, step := steps[..|steps| - 1], steps[|steps| - 1];
      var s := Run(Empty<T>(), before);
      if step == Go(t) && LocalOf(s, t).DequeueData? then (if Contents(s) == [] then None else Some(Contents(s)[0]))
      else Front(before, t)
  }

  /** The value thread `t` is bringing in, and the value it is taking away. */
  function Bringing<T>(l: Local<T>): Option<T> {
    match l
    case EnqueueReady(_, x) => Some(x)
    case EnqueueLocked(_, x) => Some(x)
    case _ => None
  }

  function Taking<T>(l: Local<T>): Option<T> {
    match l
    case DequeueSwapped(_, x) => Some(x)
    case DequeueUnlocked(_, x) => Some(x)
    case _ => None
  }

  ghost predicate CarriesItsOwn<T>(steps: seq<Step<T>>, t: nat) {
    var l := LocalOf(Run(Empty<T>(), steps), t);
    && (Bringing(l).Some? ==> Bringing(l) == Argument(steps, t))
    && (Taking(l).Some? ==> Taking(l) == Front(steps, t))
  }

  lemma LocksChangeOwn<T>(s: Queue<T>, t: nat, u: nat)
    requires u != t
    requires var l := LocalOf(s, t); l.EnqueueReady? || l.EnqueueLinked? || l.EnqueueStored? || l.DequeueSwapped?
    ensures LocalOf(Go1(s, t), u) == LocalOf(s, u)
  {
  }

  lemma ReadsChangeOwn<T>(s: Queue<T>, t: nat, u: nat)
    requires u != t
    requires var l := LocalOf(s, t); l.DequeueReady? || l.DequeueLocked? || l.DequeueHead? || l.DequeueNext?
    ensures LocalOf(Go1(s, t), u) == LocalOf(s, u)
  {
  }

  lemma WritesChangeOwn<T>(s: Queue<T>, t: nat, u: nat)
    requires u != t
    requires var l := LocalOf(s, t); l.EnqueueLocked? || l.DequeueData? || l.DequeueUnlocked?
    ensures LocalOf(Go1(s, t), u) == LocalOf(s, u)
  {
  }

  /** A step changes its own thread's state only. */
  lemma OnlyOwnStep<T>(s: Queue<T>, step: Step<T>, t: nat)
    requires step.t != t
    ensures LocalOf(Apply(s, step), t) == LocalOf(s, t)
  {
    if step.Go? {
      match LocalOf(s, step.t)
      case Outside =>
      case EnqueueReady(_, _) => LocksChangeOwn(s, step.t, t);
      case EnqueueLinked(_) => LocksChangeOwn(s, step.t, t);
      case EnqueueStored => LocksChangeOwn(s, step.t, t);
      case DequeueSwapped(_, _) => LocksChangeOwn(s, step.t, t);
      case EnqueueLocked(_, _) => WritesChangeOwn(s, step.t, t);
      case DequeueData(_, _, _) => WritesChangeOwn(s, step.t, t);
      case DequeueUnlocked(_, _) => WritesChangeOwn(s, step.t, t);
      case _ => ReadsChangeOwn(s, step.t, t);
    }
  }

  /** Its own steps keep the value a thread brings in until the node is linked. */
  lemma KeepsBringing<T>(s: Queue<T>, step: Step<T>)
    ensures var l, l' := LocalOf(s, step.t), LocalOf(Apply(s, step), step.t);
            Bringing(l').Some? ==>
              Bringing(l') == if step.Enqueue? && l.Outside? then Some(step.data) else Bringing(l)
  {
  }

  /** And the value it takes away until the call returns. */
  lemma KeepsTaking<T>(s: Queue<T>, step: Step<T>)
    requires Inv(s)
    ensures var l, l' := LocalOf(s, step.t), LocalOf(Apply(s, step), step.t);
            && (Taking(l').Some? && !(step.Go? && l.DequeueData?) ==> Taking(l') == Taking(l))
            && (step.Go? && l.DequeueData? ==> Contents(s) != [] && Taking(l') == Some(Contents(s)[0]))
  {
    if step.Go? && LocalOf(s, step.t).DequeueData? {
      MoveHeadRefines(s, step.t);
    }
  }

  /** Under every interleaving a call of enqueue keeps the value it was called with until it is linked, and a call of
      dequeue keeps the value that was the front when it moved the head until it returns it. */
  lemma {:induction false} EveryCallCarriesItsOwn<T>(steps: seq<Step<T>>, t: nat)
    ensures CarriesItsOwn(steps, t)
  {
    if steps != [] {
      var before, step := steps[..|steps| - 1], steps[|steps| - 1];
      EveryCallCarriesItsOwn(before, t);
      RunKeepsInv(before);
      if step.t == t {
        KeepsBringing(Run(Empty<T>(), before), step);
        KeepsTaking(Run(Empty<T>(), before), step);
      } else {
        OnlyOwnStep(Run(Empty<T>(), before), step, t);
      }
    }
  }

  lemma LinkAppends<T>(s: Queue<T>, step: Step<T>)
    requires Inv(s)
    ensures Apply(s, step).enqueued
         == if step.Go? && LocalOf(s, step.t).EnqueueLocked? then s.enqueued + [LocalOf(s, step.t).data]
            else s.enqueued
  {
    if step.Go? && LocalOf(s, step.t).EnqueueLocked? {
      assert LocalOk(s, step.t);
      LinkKeepsStored(s, step.t);
    }
  }

  /** Under every interleaving what was enqueued is, in the order of the links, what the calls were called with. */
  lemma {:induction false} EnqueuedIsArguments<T>(steps: seq<Step<T>>)
    ensures Wrapped(Run(Empty<T>(), steps).enqueued) == LinkedArguments(steps)
  {
    if steps != [] {
      var before, step := steps[..|steps| - 1], steps[|steps| - 1];
      EnqueuedIsArguments(before);
      RunKeepsInv(before);
      LinkAppends(Run(Empty<T>(), before), step);
      EveryCallCarriesItsOwn(before, step.t);
    }
  }

  // ---------------------------------------------------------------- where the tail pointer points

  predicate BetweenWrites<T>(s: Queue<T>) {
    s.tailLock.Some? && LocalOf(s, s.tailLock.value).EnqueueLinked?
  }

  ghost predicate SomeoneHas<T>(s: Queue<T>, n: nat) { exists u :: Mine(s, u) == n }

  /** Between the two tail writes the tail points to the node before the new one; once that node is no longer in the
      list it is the old dummy of the dequeue that took it out, in the heap exactly until that dequeue deletes it. */
  ghost predicate LagsByOne<T>(s: Queue<T>) {
    var last := |s.nodes| - 1;
    && 0 < s.tail < s.nextFree && last >= 0 && s.tail != s.nodes[last]
    && (last > 0 ==> s.tail == s.nodes[last - 1])
    && (last == 0 ==> (s.tail in s.heap <==> SomeoneHas(s, s.tail)))
  }

  ghost predicate TailFollows<T>(s: Queue<T>) { BetweenWrites(s) ==> LagsByOne(s) }

  /** A step after which the same threads have the same private nodes. */
  lemma SameOwners<T>(s: Queue<T>, r: Queue<T>, n: nat)
    requires forall u :: Mine(r, u) == Mine(s, u)
    ensures SomeoneHas(r, n) <==> SomeoneHas(s, n)
  {
    if SomeoneHas(s, n) {
      var u :| Mine(s, u) == n;
      assert Mine(r, u) == n;
    }
  }

  lemma EnqueueFollows<T>(s: Queue<T>, t: nat, x: T)
    requires Inv(s) && TailFollows(s) && LocalOf(s, t).Outside?
    ensures TailFollows(Apply(s, Enqueue(t, x)))
  {
    var r := Apply(s, Enqueue(t, x));
    if BetweenWrites(r) {
      assert LocalOk(s, t) && forall u :: u != t ==> LocalOf(r, u) == LocalOf(s, u);
      assert forall u :: u != t ==> Mine(r, u) == Mine(s, u);
      if SomeoneHas(s, s.tail) {
        var u :| Mine(s, u) == s.tail;
        assert Mine(r, u) == s.tail;
      }
    }
  }

  lemma LinkFollows<T>(s: Queue<T>, t: nat)
    requires Inv(s) && LocalOf(s, t).EnqueueLocked?
    ensures TailFollows(Go1(s, t))
  {
    assert LocalOk(s, t) && MineOk(s, t);
  }

  lemma MoveHeadFollows<T>(s: Queue<T>, t: nat)
    requires Inv(s) && TailFollows(s) && LocalOf(s, t).DequeueData?
    ensures TailFollows(Go1(s, t))
  {
    var r := Go1(s, t);
    assert LocalOk(s, t);
    if BetweenWrites(r) {
      assert r.tailLock.value != t && LocalOf(s, s.tailLock.value) == LocalOf(r, r.tailLock.value);
      assert Mine(r, t) == s.nodes[0];
    }
  }

  lemma FreeFollows<T>(s: Queue<T>, t: nat)
    requires Inv(s) && TailFollows(s) && LocalOf(s, t).DequeueUnlocked?
    ensures TailFollows(Go1(s, t))
  {
    var r := Go1(s, t);
    assert LocalOk(s, t) && MineOk(s, t);
    if BetweenWrites(r) {
      assert r.tailLock.value != t && LocalOf(s, s.tailLock.value) == LocalOf(r, r.tailLock.value);
      assert forall u :: u != t ==> Mine(r, u) == Mine(s, u);
      FreedOwner(s, r, t);
    }
  }

  /** The deleting thread gives up its node, which nobody else has. */
  lemma FreedOwner<T>(s: Queue<T>, r: Queue<T>, t: nat)
    requires PrivateOk(s) && Mine(s, t) != 0 && Mine(r, t) == 0 && forall u :: u != t ==> Mine(r, u) == Mine(s, u)
    ensures !SomeoneHas(r, Mine(s, t))
    ensures forall n :: n != 0 && n != Mine(s, t) ==> (SomeoneHas(r, n) <==> SomeoneHas(s, n))
  {
    forall u ensures Mine(r, u) != Mine(s, t) {
      assert Apart(s, t, u);
    }
    forall n | n != 0 && n != Mine(s, t) ensures SomeoneHas(r, n) <==> SomeoneHas(s, n) {
      if SomeoneHas(s, n) {
        var u :| Mine(s, u) == n;
        assert Mine(r, u) == n;
      }
    }
  }

  lemma OthersOnlyLock<T>(s: Queue<T>, t: nat)
    requires Inv(s)
    requires var l := LocalOf(s, t); !l.EnqueueLocked? && !l.DequeueData? && !l.DequeueUnlocked?
    ensures var r := Go1(s, t);
            && r == s.(locals := r.locals, headLock := r.headLock, tailLock := r.tailLock, tail := r.tail)
            && (r.tail == s.tail || LocalOf(s, t).EnqueueLinked?)
            && (forall u :: u != t ==> LocalOf(r, u) == LocalOf(s, u))
  {
    assert LocalOk(s, t);
  }

  /** Every other step leaves the list, the heap, the tail and the private nodes alone, or ends the two writes. */
  lemma OtherFollows<T>(s: Queue<T>, t: nat)
    requires Inv(s) && TailFollows(s)
    requires var l := LocalOf(s, t); !l.EnqueueLocked? && !l.DequeueData? && !l.DequeueUnlocked?
    ensures TailFollows(Go1(s, t))
  {
    var r := Go1(s, t);
    OthersOnlyLock(s, t);
    assert LocalOk(s, t);
    if BetweenWrites(r) {
      assert r.tailLock.value != t && LocalOf(s, s.tailLock.value) == LocalOf(r, r.tailLock.value);
      SameOwners(s, r, s.tail);
    }
  }

  lemma StepFollows<T>(s: Queue<T>, step: Step<T>)
    requires Inv(s) && TailFollows(s)
    ensures TailFollows(Apply(s, step))
  {
    var l := LocalOf(s, step.t);
    match step
    case Enqueue(t, x) =>
      if l.Outside? {
        EnqueueFollows(s, t, x);
      }
    case Dequeue(t) =>
      if l.Outside? {
        SameOwners(s, Apply(s, step), s.tail);
      }
    case Go(t) =>
      if l.EnqueueLocked? {
        LinkFollows(s, t);
      } else if l.DequeueData? {
        MoveHeadFollows(s, t);
      } else if l.DequeueUnlocked? {
        FreeFollows(s, t);
      } else {
        OtherFollows(s, t);
      }
  }

  lemma {:induction false} RunFollows<T>(steps: seq<Step<T>>)
    ensures TailFollows(Run(Empty<T>(), steps))
  {
    if steps != [] {
      RunKeepsInv(steps[..|steps| - 1]);
      RunFollows(steps[..|steps| - 1]);
      StepFollows(Run(Empty<T>(), steps[..|steps| - 1]), steps[|steps| - 1]);
    }
  }

  /** In every interleaving the tail pointer is off the last node exactly between the two tail writes of an enqueue, and
      it dangles exactly when, between them, the list has no node but the new one and the dequeue that took the old
      dummy out has deleted it. */
  lemma TailDanglesExactly<T>(steps: seq<Step<T>>)
    ensures var s := Run(Empty<T>(), steps);
            && s.nodes != [] && (s.tail == s.nodes[|s.nodes| - 1] <==> !BetweenWrites(s))
            && (s.tail !in s.heap <==> BetweenWrites(s) && |s.nodes| == 1 && !SomeoneHas(s, s.tail))
  {
    RunKeepsInv(steps);
    RunFollows(steps);
  }

  lemma Extend<T>(steps: seq<Step<T>>, from: Queue<T>, step: Step<T>, to: Queue<T>) returns (more: seq<Step<T>>)
    requires Run(Empty<T>(), steps) == from && Apply(from, step) == to
    ensures Run(Empty<T>(), more) == to
  {
    more := steps + [step];
    RunSnoc(Empty<T>(), steps, step);
  }

  /** Thread 0 has linked its node and not yet moved the tail; thread 1 is at `l` inside a dequeue. */
  function HalfEnqueued(l: Local<int>): Queue<int> {
    Queue(map[1 := Node(None, 2), 2 := Node(Some(7), 0)], 3, 1, 1, if l.DequeueReady? then None else Some(1), Some(0),
          map[0 := EnqueueLinked(2), 1 := l], false, [7], [], [1, 2])
  }

  /** Before that: thread 0 is at `l` with its node still private. */
  function Enqueueing(l: Local<int>): Queue<int> {
    Queue(map[1 := Node(None, 0), 2 := Node(Some(7), 0)], 3, 1, 1, None, if l.EnqueueReady? then None else Some(0),
          map[0 := l, 1 := DequeueReady], false, [], [], [1])
  }

  lemma LinkFirst() returns (steps: seq<Step<int>>)
    ensures Run(Empty<int>(), steps) == HalfEnqueued(DequeueReady)
  {
    var waiting := Empty<int>().(locals := map[1 := DequeueReady]);
    steps := Extend([], Empty(), Dequeue(1), waiting);
    steps := Extend(steps, waiting, Enqueue(0, 7), Enqueueing(EnqueueReady(2, 7)));
    steps := Extend(steps, Enqueueing(EnqueueReady(2, 7)), Go(0), Enqueueing(EnqueueLocked(2, 7)));
    steps := Extend(steps, Enqueueing(EnqueueLocked(2, 7)), Go(0), HalfEnqueued(DequeueReady));
  }

  lemma ThenLock(steps: seq<Step<int>>) returns (more: seq<Step<int>>)
    requires Run(Empty<int>(), steps) == HalfEnqueued(DequeueReady)
    ensures Run(Empty<int>(), more) == HalfEnqueued(DequeueHead(1))
  {
    more := Extend(steps, HalfEnqueued(DequeueReady), Go(1), HalfEnqueued(DequeueLocked));
    more := Extend(more, HalfEnqueued(DequeueLocked), Go(1), HalfEnqueued(DequeueHead(1)));
  }

  lemma ThenRead(steps: seq<Step<int>>) returns (more: seq<Step<int>>)
    requires Run(Empty<int>(), steps) == HalfEnqueued(DequeueHead(1))
    ensures Run(Empty<int>(), more) == HalfEnqueued(DequeueData(1, 2, 7))
  {
    more := Extend(steps, HalfEnqueued(DequeueHead(1)), Go(1), HalfEnqueued(DequeueNext(1, 2)));
    more := Extend(more, HalfEnqueued(DequeueNext(1, 2)), Go(1), HalfEnqueued(DequeueData(1, 2, 7)));
  }

  /** And it really can: a dequeue between the two tail writes deletes the node the tail points to. */
  lemma TailCanDangle() returns (steps: seq<Step<int>>)
    ensures var s := Run(Empty<int>(), steps); s.tail !in s.heap && LocalOf(s, 0).EnqueueLinked?
  {
    steps := LinkFirst();
    steps := ThenLock(steps);
    steps := ThenRead(steps);
    steps := ThenDelete(steps);
  }

  lemma ThenDelete(steps: seq<Step<int>>) returns (more: seq<Step<int>>)
    requires Run(Empty<int>(), steps) == HalfEnqueued(DequeueData(1, 2, 7))
    ensures var s := Run(Empty<int>(), more); s.tail !in s.heap && LocalOf(s, 0).EnqueueLinked?
  {
    var taken := MoveHead(HalfEnqueued(DequeueData(1, 2, 7)), 1, 1, 2, 7);
    more := Extend(steps, HalfEnqueued(DequeueData(1, 2, 7)), Go(1), taken);
    var unlocked := At(taken, 1, DequeueUnlocked(1, 7)).(headLock := None);
    more := Extend(more, taken, Go(1), unlocked);
    more := Extend(more, unlocked, Go(1), At(unlocked, 1, Outside).(heap := unlocked.heap - {1}));
  }

  // ---------------------------------------------------------------- the object

  /** The queue as an object called by one thread at a time: the locks and the interleaving are in the machine above. */
  class QueueMPMC<T(0)> {
    var head: ListNode<T>
    var tail: ListNode<T>
    ghost var nodes: seq<ListNode<T>>
    ghost var deleted: set<ListNode<T>>

    /** The list never leads to a deleted node. */
    ghost predicate Valid()
      reads this, nodes
    {
      && nodes != [] && head == nodes[0] && tail == nodes[|nodes| - 1] && AreLinked(nodes)
      && forall i :: 0 <= i < |nodes| ==> nodes[i] !in deleted
    }

    /** The values behind the dummy node. */
    ghost function Held(): seq<T>
      requires Valid()
      reads this, nodes
    {
      Data(nodes[1..])
    }

    constructor ()
      ensures Valid() && Held() == [] && fresh(nodes) && deleted == {}
    {
      var dummy := new ListNode<T>();
      head, tail := dummy, dummy;
      nodes, deleted := [dummy], {};
    }

    method Enqueue(data: T)
      requires Valid()
      modifies this`tail, this`nodes, tail
      ensures Valid() && old(nodes) <= nodes && fresh(nodes[|old(nodes)|..])
      ensures Held() == old(Held()) + [data]
    {
      var newNode := new ListNode<T>();
      newNode.data := data;
      tail.next := newNode;
      tail := newNode;
      nodes := nodes + [newNode];
    }

    /** The old dummy is deleted, and with it nothing that the list still needs. */
    method Dequeue() returns (data: Option<T>)
      requires Valid()
      modifies this`head, this`nodes, this`deleted
      ensures Valid()
      ensures data.None? <==> old(Held()) == []
      ensures old(Held()) == if data.Some? then [data.value] + Held() else Held()
      ensures nodes == if data.Some? then old(nodes)[1..] else old(nodes)
      ensures deleted == if data.Some? then old(deleted) + {old(head)} else old(deleted)
    {
      var currentHead := head;
      var newHead := currentHead.next;
      assert |nodes| > 1 ==> newHead == nodes[1];
      if newHead == null {
        return None;
      }
      data := Some(newHead.data);
      head := newHead;
      nodes := nodes[1..];
      deleted := deleted + {currentHead};
    }
  }
}
