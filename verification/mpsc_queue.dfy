/** The unbounded queue of many producers and one consumer, which detaches the whole list at once, together with the
    dispatcher's traversal of the detached list.  One step per shared load or store, lock or unlock, allocation or
    deletion; a deleted node leaves the heap, and touching a node that is not in the heap raises `fault`. */
module MpscQueues {
  import opened Options
  import opened LinkedNodes
  import opened Sequences

  /** Where a producer is inside push. */
  datatype Producer<T> =
    | Outside
    | PushReady(node: nat, data: T)     // the new node is filled in; the lock is next
    | PushLocked(node: nat, data: T)
    | PushLinked(node: nat)             // between the two tail writes
    | PushStored

  /** Where the consumer is inside flush, and then in the traversal of what flush returned. */
  datatype Consumer =
    | Idle
    | Checking                          // inside isEmpty, the lock held
    | Found                             // isEmpty said no and has released the lock
    | Waiting                           // the lock held, about to test the wait's condition
    | Blocked                           // the condition was false: asleep
    | Detaching                         // the condition held: m_head->m_next is loaded next
    | Cutting(list: nat)                // m_head->m_next is set to null next
    | Resetting(list: nat)              // m_tail is set to m_head next
    | Unlocking(list: nat)
    | Traversing(list: nat)             // at the top of the traversal loop
    | Handled(list: nat)                // the node's message has been handled
    | Freeing(list: nat, next: nat)     // m_next has been read, the node is deleted next

  datatype Holder = ByConsumer | ByProducer(t: nat)

  datatype Queue<T> = Queue(
    heap: Heap<T>, nextFree: nat,
    head: nat, tail: nat,
    lock: Option<Holder>,
    producers: map<nat, Producer<T>>, consumer: Consumer,
    fault: bool,
    // history
    pushed: seq<T>,             // in the order in which the nodes were linked
    flushed: seq<seq<T>>,       // one list for every flush that returned one
    drained: seq<T>,            // those lists one after another
    handled: seq<T>,            // what the traversal has handled
    nodes: seq<nat>,            // the live list, from its dummy
    detached: seq<nat>)         // the nodes of the last flushed list that are not deleted yet

  datatype Step<T> = Push(t: nat, data: T) | Producer(t: nat) | Consumer

  function ProducerAt<T>(s: Queue<T>, t: nat): Producer<T> { if t in s.producers then s.producers[t] else Outside }

  function Put<T>(s: Queue<T>, t: nat, l: Producer<T>): Queue<T> { s.(producers := s.producers[t := l]) }

  function Empty<T>(): Queue<T> {
    Queue(map[1 := Node(None, 0)], 2, 1, 1, None, map[], Idle, false, [], [], [], [], [1], [])
  }

  function ProducerStep<T>(s: Queue<T>, t: nat): Queue<T> {
    match ProducerAt(s, t)
    case Outside => s
    case PushReady(n, x) => if s.lock.None? then Put(s, t, PushLocked(n, x)).(lock := Some(ByProducer(t))) else s
    case PushLocked(n, _) =>
      if s.tail in s.heap && n in s.heap && s.heap[n].data.Some?
      then Put(s, t, PushLinked(n)).(heap := s.heap[s.tail := s.heap[s.tail].(next := n)],
                                     pushed := s.pushed + [s.heap[n].data.value], nodes := s.nodes + [n])
      else s.(fault := true)
    case PushLinked(n) => Put(s, t, PushStored).(tail := n)
    case PushStored => Put(s, t, Outside).(lock := None)
  }

  /** The values of the nodes `ids`, as far as they carry one. */
  function Values<T>(heap: Heap<T>, ids: seq<nat>): seq<T> {
    if ids == [] then []
    else if ids[0] in heap && heap[ids[0]].data.Some? then [heap[ids[0]].data.value] + Values(heap, ids[1..])
    else Values(heap, ids[1..])
  }

  /** The nodes behind the dummy. */
  function Behind(nodes: seq<nat>): seq<nat> { if nodes == [] then [] else nodes[1..] }

  function ConsumerStep<T>(s: Queue<T>): Queue<T> {
    match s.consumer
    case Idle => if s.lock.None? then s.(consumer := Checking, lock := Some(ByConsumer)) else s
    case Checking =>
      if s.head in s.heap then s.(consumer := if s.heap[s.head].next == 0 then Idle else Found, lock := None)
      else s.(fault := true)
    case Found => if s.lock.None? then s.(consumer := Waiting, lock := Some(ByConsumer)) else s
    case Waiting =>
      if s.head !in s.heap then s.(fault := true)
      else if s.heap[s.head].next == 0 then s.(consumer := Blocked, lock := None)
      else s.(consumer := Detaching)
    case Blocked => s
    case Detaching => if s.head in s.heap then s.(consumer := Cutting(s.heap[s.head].next)) else s.(fault := true)
    case Cutting(list) =>
      if s.head in s.heap
      then s.(heap := s.heap[s.head := s.heap[s.head].(next := 0)], consumer := Resetting(list),
              flushed := s.flushed + [Values(s.heap, Behind(s.nodes))],
              drained := s.drained + Values(s.heap, Behind(s.nodes)),
              nodes := s.nodes[..|s.nodes| - |Behind(s.nodes)|], detached := Behind(s.nodes))
      else s.(fault := true)
    case Resetting(list) => s.(tail := s.head, consumer := Unlocking(list))
    case Unlocking(list) => s.(lock := None, consumer := Traversing(list))
    case Traversing(list) =>
      if list == 0 then s.(consumer := Idle)
      else if list in s.heap && s.heap[list].data.Some?
      then s.(consumer := Handled(list), handled := s.handled + [s.heap[list].data.value])
      else s.(fault := true)
    case Handled(list) =>
      if list in s.heap then s.(consumer := Freeing(list, s.heap[list].next)) else s.(fault := true)
    case Freeing(list, next) =>
      if list in s.heap
      then s.(heap := s.heap - {list}, consumer := Traversing(next),
              detached := if s.detached == [] then [] else s.detached[1..])
      else s.(fault := true)
  }

  /** A push begins only outside a push; otherwise the step leaves the state alone, so any sequence is a run. */
  function Apply<T>(s: Queue<T>, step: Step<T>): Queue<T> {
    match step
    case Push(t, x) =>
      if ProducerAt(s, t).Outside?
      then Put(s, t, PushReady(s.nextFree, x)).(heap := s.heap[s.nextFree := Node(Some(x), 0)],
                                                       nextFree := s.nextFree + 1)
      else s
    case Producer(t) => ProducerStep(s, t)
    case Consumer => ConsumerStep(s)
  }

  function Run<T>(s: Queue<T>, steps: seq<Step<T>>): Queue<T> {
    if steps == [] then s else Apply(Run(s, steps[..|steps| - 1]), steps[|steps| - 1])
  }

  function Flatten<T>(lists: seq<seq<T>>): seq<T> {
    if lists == [] then [] else Flatten(lists[..|lists| - 1]) + lists[|lists| - 1]
  }

  // ---------------------------------------------------------------- the invariant

  /** The live list from the dummy and the detached list are disjoint null-terminated lists. */
  ghost predicate Lists<T>(heap: Heap<T>, head: nat, nodes: seq<nat>, detached: seq<nat>) {
    && nodes != [] && head == nodes[0]
    && IsChain(heap, nodes) && IsChain(heap, detached)
    && (forall i, j :: 0 <= i < |nodes| && 0 <= j < |detached| ==> nodes[i] != detached[j])
  }

  /** What was pushed is what was flushed, then the values behind the dummy. */
  ghost predicate LiveOk<T>(heap: Heap<T>, nodes: seq<nat>, pushed: seq<T>, drained: seq<T>) {
    && |pushed| == |drained| + |nodes| - 1 && drained <= pushed
    && (forall i :: 0 < i < |nodes| ==> nodes[i] in heap && heap[nodes[i]].data == Some(pushed[|drained| + i - 1]))
  }

  function HandledHere(c: Consumer): nat { if c.Handled? || c.Freeing? then 1 else 0 }

  /** What was flushed is what was handled, then the values of the detached list, but for the node being handled. */
  ghost predicate DetachedOk<T>(heap: Heap<T>, detached: seq<nat>, drained: seq<T>, handled: seq<T>, here: nat) {
    && |handled| + |detached| == |drained| + here
    && handled <= drained && |detached| <= |drained|
    && (forall i :: 0 <= i < |detached| ==>
          detached[i] in heap && heap[detached[i]].data == Some(drained[|drained| - |detached| + i]))
  }

  ghost predicate Stored<T>(s: Queue<T>) {
    && Lists(s.heap, s.head, s.nodes, s.detached)
    && LiveOk(s.heap, s.nodes, s.pushed, s.drained)
    && DetachedOk(s.heap, s.detached, s.drained, s.handled, HandledHere(s.consumer))
    && Flatten(s.flushed) == s.drained
  }

  ghost predicate Numbered<T>(s: Queue<T>) { 0 < s.nextFree && forall n :: n in s.heap ==> 0 < n < s.nextFree }

  function Private<T>(l: Producer<T>): nat {
    match l
    case PushReady(n, _) => n
    case PushLocked(n, _) => n
    case _ => 0
  }

  function Mine<T>(s: Queue<T>, t: nat): nat { Private(ProducerAt(s, t)) }

  ghost predicate MineOk<T>(s: Queue<T>, t: nat) {
    Mine(s, t) != 0 ==>
      Mine(s, t) in s.heap && s.heap[Mine(s, t)].data.Some? && s.heap[Mine(s, t)].next == 0
      && Mine(s, t) !in s.nodes && Mine(s, t) !in s.detached
  }

  ghost predicate Apart<T>(s: Queue<T>, t: nat, u: nat) {
    t != u && Mine(s, t) != 0 ==> Mine(s, t) != Mine(s, u)
  }

  ghost predicate PrivateOk<T>(s: Queue<T>) {
    (forall t :: MineOk(s, t)) && (forall t, u :: Apart(s, t, u))
  }

  ghost predicate ProducerOk<T>(s: Queue<T>, t: nat) {
    match ProducerAt(s, t)
    case Outside => true
    case PushReady(n, x) => n != 0 && n in s.heap && s.heap[n].data == Some(x)
    case PushLocked(n, x) => s.lock == Some(ByProducer(t)) && n != 0 && n in s.heap && s.heap[n].data == Some(x)
    case PushLinked(n) => s.lock == Some(ByProducer(t)) && s.nodes != [] && n == s.nodes[|s.nodes| - 1]
    case PushStored => s.lock == Some(ByProducer(t))
  }

  function First(ids: seq<nat>): nat { if ids == [] then 0 else ids[0] }

  ghost predicate ConsumerOk<T>(s: Queue<T>) {
    match s.consumer
    case Idle => s.detached == []
    case Checking => s.lock == Some(ByConsumer) && s.detached == []
    case Found => |s.nodes| > 1 && s.detached == []
    case Waiting => s.lock == Some(ByConsumer) && |s.nodes| > 1 && s.detached == []
    case Blocked => false
    case Detaching => s.lock == Some(ByConsumer) && |s.nodes| > 1 && s.detached == []
    case Cutting(list) => s.lock == Some(ByConsumer) && |s.nodes| > 1 && s.detached == [] && list == s.nodes[1]
    case Resetting(list) => s.lock == Some(ByConsumer) && |s.nodes| == 1 && list == First(s.detached)
    case Unlocking(list) => s.lock == Some(ByConsumer) && list == First(s.detached)
    case Traversing(list) => list == First(s.detached)
    case Handled(list) => s.detached != [] && list == s.detached[0]
    case Freeing(list, next) => s.detached != [] && list == s.detached[0] && next == First(s.detached[1..])
  }

  /** The tail lags only between two tail writes, which happen under the lock. */
  ghost predicate TailOk<T>(s: Queue<T>)
    requires s.nodes != []
  {
    || (s.lock.Some? && s.lock.value.ByProducer? && ProducerAt(s, s.lock.value.t).PushLinked?)
    || s.consumer.Resetting?
    || s.tail == s.nodes[|s.nodes| - 1]
  }

  ghost predicate Threads<T>(s: Queue<T>)
    requires s.nodes != []
  {
    Numbered(s) && PrivateOk(s) && TailOk(s) && ConsumerOk(s) && forall t :: ProducerOk(s, t)
  }

  ghost predicate Inv<T>(s: Queue<T>) {
    !s.fault && Stored(s) && Threads(s)
  }

  // ---------------------------------------------------------------- producers

  /** A new node changes nothing about the lists. */
  lemma NewNodeStored<T>(s: Queue<T>, n: nat, node: Node<T>)
    requires Stored(s) && n !in s.heap
    ensures Stored(s.(heap := s.heap[n := node]))
  {
  }

  lemma PushKeepsInv<T>(s: Queue<T>, t: nat, x: T)
    requires Inv(s) && ProducerAt(s, t).Outside?
    ensures Inv(Apply(s, Push(t, x)))
  {
    var r := Apply(s, Push(t, x));
    NewNodeStored(s, s.nextFree, Node(Some(x), 0));
    assert Stored(r);
    NewNodeOwned(s, t, x);
  }

  /** The new node is the caller's own. */
  lemma NewNodeOwned<T>(s: Queue<T>, t: nat, x: T)
    requires Inv(s) && ProducerAt(s, t).Outside?
    ensures PrivateOk(Apply(s, Push(t, x))) && forall u :: ProducerOk(Apply(s, Push(t, x)), u)
  {
    var r := Apply(s, Push(t, x));
    forall u ensures ProducerOk(r, u) && MineOk(r, u) {
      assert ProducerOk(s, u) && MineOk(s, u);
    }
    forall u, v ensures Apart(r, u, v) {
      assert Apart(s, u, v) && MineOk(s, u) && MineOk(s, v);
    }
  }

  /** The list grows by a private node, through its last node's link. */
  function Linked<T>(heap: Heap<T>, last: nat, n: nat): Heap<T>
    requires last in heap
  {
    heap[last := heap[last].(next := n)]
  }

  lemma LinkLists<T>(s: Queue<T>, n: nat)
    requires Lists(s.heap, s.head, s.nodes, s.detached)
    requires n in s.heap && s.heap[n].next == 0 && n !in s.nodes && n !in s.detached
    ensures Lists(Linked(s.heap, s.nodes[|s.nodes| - 1], n), s.head, s.nodes + [n], s.detached)
  {
    assert forall i :: 0 <= i < |s.nodes| ==> s.nodes[i] in s.nodes;
  }

  lemma LinkStored<T>(s: Queue<T>, n: nat, x: T)
    requires Stored(s) && n in s.heap && s.heap[n] == Node(Some(x), 0) && n !in s.nodes && n !in s.detached
    ensures Stored(s.(heap := Linked(s.heap, s.nodes[|s.nodes| - 1], n), pushed := s.pushed + [x],
                        nodes := s.nodes + [n]))
  {
    LinkLists(s, n);
  }

  lemma LinkKeepsInv<T>(s: Queue<T>, t: nat)
    requires Inv(s) && ProducerAt(s, t).PushLocked?
    ensures Inv(ProducerStep(s, t))
  {
    var r, n := ProducerStep(s, t), ProducerAt(s, t).node;
    assert ProducerOk(s, t) && MineOk(s, t);
    LinkStored(s, n, s.heap[n].data.value);
    assert Stored(r);
    forall u ensures ProducerOk(r, u) && MineOk(r, u) {
      assert ProducerOk(s, u) && MineOk(s, u) && Apart(s, t, u);
    }
    forall u, v ensures Apart(r, u, v) {
      assert Apart(s, u, v);
    }
  }

  /** A producer's step that only locks or unlocks, and moves no more than the tail pointer. */
  lemma LocksKept<T>(s: Queue<T>, r: Queue<T>, t: nat)
    requires Inv(s) && r == s.(producers := r.producers, lock := r.lock, tail := r.tail)
    requires ProducerOk(r, t) && TailOk(r) && ConsumerOk(r)
    requires forall u :: u != t ==> ProducerAt(r, u) == ProducerAt(s, u)
    requires Mine(r, t) == 0 || Mine(r, t) == Mine(s, t)
    requires s.lock.Some? && s.lock != Some(ByProducer(t)) ==> r.lock == s.lock
    ensures Inv(r)
  {
    assert MineOk(s, t);
    forall u ensures ProducerOk(r, u) && MineOk(r, u) {
      assert ProducerOk(s, u) && MineOk(s, u);
    }
    forall u, v ensures Apart(r, u, v) {
      assert Apart(s, u, v);
    }
  }

  lemma LockKeepsInv<T>(s: Queue<T>, t: nat)
    requires Inv(s) && ProducerAt(s, t).PushReady?
    ensures Inv(ProducerStep(s, t))
  {
    assert ProducerOk(s, t);
    LocksKept(s, ProducerStep(s, t), t);
  }

  lemma UnlockKeepsInv<T>(s: Queue<T>, t: nat)
    requires Inv(s) && (ProducerAt(s, t).PushLinked? || ProducerAt(s, t).PushStored?)
    ensures Inv(ProducerStep(s, t))
  {
    assert ProducerOk(s, t);
    LocksKept(s, ProducerStep(s, t), t);
  }

  // ---------------------------------------------------------------- the consumer

  /** The producers do not notice a step that leaves their nodes, the lock they hold and the live list alone. */
  lemma ProducersKept<T>(s: Queue<T>, r: Queue<T>)
    requires Inv(s) && r.producers == s.producers && r.nodes == s.nodes
    requires s.lock.Some? && s.lock.value.ByProducer? ==> r.lock == s.lock
    requires forall n :: n in s.heap && n !in s.detached ==> n in r.heap && r.heap[n] == s.heap[n]
    requires forall n :: n in r.detached ==> n in s.detached
    ensures PrivateOk(r) && forall t :: ProducerOk(r, t)
  {
    forall u ensures ProducerOk(r, u) && MineOk(r, u) {
      assert ProducerOk(s, u) && MineOk(s, u);
    }
    forall u, v ensures Apart(r, u, v) {
      assert Apart(s, u, v);
    }
  }

  /** The steps that only look, lock and unlock. */
  lemma GoInKeepsInv<T>(s: Queue<T>)
    requires Inv(s) && (s.consumer.Idle? || s.consumer.Found?)
    ensures Inv(ConsumerStep(s))
  {
    var r := ConsumerStep(s);
    assert Stored(r);
    ProducersKept(s, r);
  }

  lemma LookKeepsInv<T>(s: Queue<T>)
    requires Inv(s)
    requires s.consumer.Checking? || s.consumer.Waiting?
    ensures Inv(ConsumerStep(s))
  {
    var r := ConsumerStep(s);
    assert |s.nodes| > 1 ==> s.nodes[1] in s.heap && s.heap[s.head].next == s.nodes[1];
    assert Stored(r);
    ProducersKept(s, r);
  }

  lemma DetachKeepsInv<T>(s: Queue<T>)
    requires Inv(s)
    requires s.consumer.Detaching? || s.consumer.Unlocking?
    ensures Inv(ConsumerStep(s))
  {
    var r := ConsumerStep(s);
    assert |s.nodes| > 1 ==> s.nodes[1] in s.heap && s.heap[s.head].next == s.nodes[1];
    assert Stored(r);
    ProducersKept(s, r);
  }

  lemma {:induction false} ValuesCarried<T>(heap: Heap<T>, ids: seq<nat>, values: seq<T>)
    requires |ids| == |values|
    requires forall i :: 0 <= i < |ids| ==> ids[i] in heap && heap[ids[i]].data == Some(values[i])
    ensures Values(heap, ids) == values
  {
    if ids != [] {
      assert ids[0] in heap;
      ValuesCarried(heap, ids[1..], values[1..]);
      assert values == [values[0]] + values[1..];
    }
  }

  lemma FlattenSnoc<T>(lists: seq<seq<T>>, list: seq<T>)
    ensures Flatten(lists + [list]) == Flatten(lists) + list
  {
    assert (lists + [list])[..|lists|] == lists;
  }

  lemma CutDrains<T>(s: Queue<T>)
    requires Inv(s)
    ensures Flatten(s.flushed + [Values(s.heap, s.nodes[1..])]) == s.drained + Values(s.heap, s.nodes[1..]) == s.pushed
  {
    var behind := s.nodes[1..];
    assert forall i :: 0 <= i < |behind| ==> behind[i] == s.nodes[i + 1];
    ValuesCarried(s.heap, behind, s.pushed[|s.drained|..]);
    FlattenSnoc(s.flushed, Values(s.heap, behind));
  }

  /** The dummy's link set to null. */
  function Severed<T>(heap: Heap<T>, head: nat): Heap<T>
    requires head in heap
  {
    heap[head := heap[head].(next := 0)]
  }

  lemma CutLists<T>(heap: Heap<T>, head: nat, nodes: seq<nat>)
    requires Lists(heap, head, nodes, [])
    ensures Lists(Severed(heap, head), head, [head], nodes[1..])
    ensures forall n :: n in nodes[1..] ==> n in nodes && n != head
  {
    var rest := nodes[1..];
    assert forall i :: 0 <= i < |rest| ==> rest[i] == nodes[i + 1];
    ChainTail(heap, nodes);
  }

  lemma CutStored<T>(s: Queue<T>)
    requires Inv(s) && s.consumer.Cutting?
    ensures var r := ConsumerStep(s);
            && Stored(r) && r.heap == Severed(s.heap, s.head) && r.nodes == [s.head] && r.detached == s.nodes[1..]
            && forall n :: n in r.detached ==> n in s.nodes && n != s.head
  {
    var r := ConsumerStep(s);
    CutDrains(s);
    CutLists(s.heap, s.head, s.nodes);
    assert r.nodes == [s.head] && r.detached == s.nodes[1..];
    assert forall i :: 0 <= i < |r.detached| ==> r.detached[i] == s.nodes[i + 1];
  }

  lemma CutOwners<T>(s: Queue<T>, r: Queue<T>)
    requires Inv(s) && r.producers == s.producers && r.lock == s.lock == Some(ByConsumer)
    requires s.head in s.heap && r.heap == Severed(s.heap, s.head) && r.nodes == [s.head]
    requires forall n :: n in r.detached ==> n in s.nodes
    ensures PrivateOk(r) && forall t :: ProducerOk(r, t)
  {
    forall u ensures ProducerOk(r, u) && MineOk(r, u) {
      assert ProducerOk(s, u) && MineOk(s, u);
    }
    forall u, v ensures Apart(r, u, v) {
      assert Apart(s, u, v);
    }
  }

  /** The cut: everything behind the dummy becomes the detached list. */
  lemma CutKeepsInv<T>(s: Queue<T>)
    requires Inv(s) && s.consumer.Cutting?
    ensures Inv(ConsumerStep(s))
  {
    CutStored(s);
    CutOwners(s, ConsumerStep(s));
  }

  lemma ResetKeepsInv<T>(s: Queue<T>)
    requires Inv(s) && s.consumer.Resetting?
    ensures Inv(ConsumerStep(s))
  {
    var r := ConsumerStep(s);
    assert Stored(r);
    ProducersKept(s, r);
  }

  /** Handling the first detached node's value. */
  lemma HandleStored<T>(s: Queue<T>, x: T, c: Consumer)
    requires Stored(s) && HandledHere(s.consumer) == 0 && HandledHere(c) == 1
    requires s.detached != [] && s.heap[s.detached[0]].data == Some(x)
    ensures Stored(s.(consumer := c, handled := s.handled + [x]))
  {
    assert x == s.drained[|s.drained| - |s.detached|];
  }

  lemma TraverseKeepsInv<T>(s: Queue<T>)
    requires Inv(s) && s.consumer.Traversing?
    ensures Inv(ConsumerStep(s))
  {
    var r := ConsumerStep(s);
    if s.consumer.list != 0 {
      HandleStored(s, s.heap[s.detached[0]].data.value, Handled(s.consumer.list));
    }
    assert Stored(r);
    ProducersKept(s, r);
  }

  lemma NextKeepsInv<T>(s: Queue<T>)
    requires Inv(s) && s.consumer.Handled?
    ensures Inv(ConsumerStep(s))
  {
    var r := ConsumerStep(s);
    assert Stored(r);
    ProducersKept(s, r);
  }

  /** Deleting the first detached node touches neither list beyond it. */
  lemma FreeStored<T>(s: Queue<T>, c: Consumer)
    requires Stored(s) && HandledHere(s.consumer) == 1 && HandledHere(c) == 0 && s.detached != []
    ensures Stored(s.(heap := s.heap - {s.detached[0]}, consumer := c, detached := s.detached[1..]))
  {
    var rest := s.detached[1..];
    assert forall i :: 0 <= i < |rest| ==> rest[i] == s.detached[i + 1];
    ChainTail(s.heap, s.detached);
    ChainWithout(s.heap, s.nodes, s.detached[0]);
  }

  lemma FreeKeepsInv<T>(s: Queue<T>)
    requires Inv(s) && s.consumer.Freeing?
    ensures Inv(ConsumerStep(s))
  {
    var r := ConsumerStep(s);
    FreeStored(s, Traversing(s.consumer.next));
    assert Stored(r);
    ProducersKept(s, r);
  }

  lemma StepKeepsInv<T>(s: Queue<T>, step: Step<T>)
    requires Inv(s)
    ensures Inv(Apply(s, step))
  {
    match step
    case Push(t, x) =>
      if ProducerAt(s, t).Outside? {
        PushKeepsInv(s, t, x);
      }
    case Producer(t) =>
      match ProducerAt(s, t) {
        case PushLocked(_, _) => LinkKeepsInv(s, t);
        case PushLinked(_) => UnlockKeepsInv(s, t);
        case PushStored => UnlockKeepsInv(s, t);
        case PushReady(_, _) => LockKeepsInv(s, t);
        case Outside =>
      }
    case Consumer =>
      match s.consumer
      case Cutting(_) => CutKeepsInv(s);
      case Resetting(_) => ResetKeepsInv(s);
      case Traversing(_) => TraverseKeepsInv(s);
      case Handled(_) => NextKeepsInv(s);
      case Freeing(_, _) => FreeKeepsInv(s);
      case Idle => GoInKeepsInv(s);
      case Found => GoInKeepsInv(s);
      case Checking => LookKeepsInv(s);
      case Waiting => LookKeepsInv(s);
      case Blocked =>
      case Detaching => DetachKeepsInv(s);
      case Unlocking(_) => DetachKeepsInv(s);
  }

  lemma {:induction false} RunKeepsInv<T>(steps: seq<Step<T>>)
    ensures Inv(Run(Empty<T>(), steps))
  {
    if steps != [] {
      RunKeepsInv(steps[..|steps| - 1]);
      StepKeepsInv(Run(Empty<T>(), steps[..|steps| - 1]), steps[|steps| - 1]);
    }
  }

  // ---------------------------------------------------------------- the theorems

  /** In every interleaving: no node is touched after its deletion; the live list and the detached list are disjoint
      null-terminated lists; the lists that the flushes returned, one after another and followed by what is still
      queued, are exactly what was pushed; and the traversal handles what was flushed in order. */
  lemma EveryRunIsFifo<T>(steps: seq<Step<T>>)
    ensures var s := Run(Empty<T>(), steps);
            && !s.fault
            && Lists(s.heap, s.head, s.nodes, s.detached)
            && Flatten(s.flushed) + Values(s.heap, Behind(s.nodes)) == s.pushed
            && s.handled <= Flatten(s.flushed)
            && (s.consumer.Idle? ==> s.handled == Flatten(s.flushed))
  {
    RunKeepsInv(steps);
    var s := Run(Empty<T>(), steps);
    CutDrains(s);
  }

  /** The abstract queue. */
  function Contents<T>(s: Queue<T>): seq<T> {
    if |Flatten(s.flushed)| <= |s.pushed| then s.pushed[|Flatten(s.flushed)|..] else []
  }

  lemma LinkRefines<T>(s: Queue<T>, t: nat)
    requires Inv(s) && ProducerAt(s, t).PushLocked?
    ensures Contents(ProducerStep(s, t)) == Contents(s) + [ProducerAt(s, t).data]
  {
    assert ProducerOk(s, t) && MineOk(s, t);
    AppendBeyond(s.pushed, ProducerAt(s, t).data, |s.drained|);
  }

  lemma CutRefines<T>(s: Queue<T>)
    requires Inv(s) && s.consumer.Cutting?
    ensures var r := ConsumerStep(s); Contents(r) == [] && r.flushed == s.flushed + [Contents(s)]
  {
    CutDrains(s);
    FlattenSnoc(s.flushed, Values(s.heap, s.nodes[1..]));
    assert s.drained + Values(s.heap, s.nodes[1..]) == s.drained + Contents(s);
  }

  lemma ProducerKeepsContents<T>(s: Queue<T>, t: nat)
    requires !ProducerAt(s, t).PushLocked?
    ensures Contents(ProducerStep(s, t)) == Contents(s)
  {
    var r := ProducerStep(s, t);
    assert r.pushed == s.pushed && r.flushed == s.flushed;
  }

  lemma ConsumerKeepsContents<T>(s: Queue<T>)
    requires !s.consumer.Cutting?
    ensures Contents(ConsumerStep(s)) == Contents(s)
  {
    var r := ConsumerStep(s);
    assert r.pushed == s.pushed && r.flushed == s.flushed;
  }

  /** Every step of every interleaving is a step of the abstract queue: linking appends the value of the push under way,
      cutting the list takes everything as the flush's result, and nothing else changes the contents. */
  lemma StepsRefineFifo<T>(steps: seq<Step<T>>, step: Step<T>)
    ensures var s := Run(Empty<T>(), steps); var r := Apply(s, step);
            if step.Producer? && ProducerAt(s, step.t).PushLocked? then
              Contents(r) == Contents(s) + [ProducerAt(s, step.t).data]
            else if step.Consumer? && s.consumer.Cutting? then
              Contents(r) == [] && r.flushed == s.flushed + [Contents(s)]
            else Contents(r) == Contents(s)
  {
    RunKeepsInv(steps);
    var s := Run(Empty<T>(), steps);
    if step.Producer? && ProducerAt(s, step.t).PushLocked? {
      LinkRefines(s, step.t);
    } else if step.Consumer? && s.consumer.Cutting? {
      CutRefines(s);
    } else {
      match step
      case Push(_, _) =>
      case Producer(t) => ProducerKeepsContents(s, t);
      case Consumer => ConsumerKeepsContents(s);
    }
  }

  /** The wait inside flush never blocks: once isEmpty has said no, the one consumer's list stays non-empty. */
  lemma FlushNeverBlocks<T>(steps: seq<Step<T>>)
    ensures var s := Run(Empty<T>(), steps);
            !s.consumer.Blocked? && (s.consumer.Waiting? ==> Apply(s, Consumer).consumer.Detaching?)
  {
    RunKeepsInv(steps);
    RunKeepsInv(steps + [Consumer]);
    var s := Run(Empty<T>(), steps);
    assert (steps + [Consumer])[..|steps|] == steps;
    assert Run(Empty<T>(), steps + [Consumer]) == Apply(s, Consumer);
  }

  lemma CheckIsHonest<T>(s: Queue<T>)
    requires Inv(s) && s.consumer.Checking?
    ensures ConsumerStep(s).consumer.Idle? <==> Flatten(s.flushed) == s.pushed
  {
    assert |s.nodes| > 1 ==> s.nodes[1] in s.heap && s.heap[s.head].next == s.nodes[1];
  }

  /** isEmpty says yes exactly when every value linked by then has been flushed. */
  lemma EmptyIsHonest<T>(steps: seq<Step<T>>)
    requires Run(Empty<T>(), steps).consumer.Checking?
    ensures var s := Run(Empty<T>(), steps); Apply(s, Consumer).consumer.Idle? <==> Flatten(s.flushed) == s.pushed
  {
    RunKeepsInv(steps);
    CheckIsHonest(Run(Empty<T>(), steps));
  }

  // ---------------------------------------------------------------- arguments and results

  /** What the push that thread `t` began last was called with. */
  function Argument<T>(steps: seq<Step<T>>, t: nat): Option<T> {
    if steps == [] then None
    else
      var before, step := steps[..|steps| - 1], steps[|steps| - 1];
      if step.Push? && step.t == t && ProducerAt(Run(Empty<T>(), before), t).Outside? then Some(step.data)
      else Argument(before, t)
  }

  /** The arguments of the pushes whose nodes have been linked, in the order of the links. */
  function LinkedArguments<T>(steps: seq<Step<T>>): seq<Option<T>> {
    if steps == [] then []
    else
      var before, step := steps[..|steps| - 1], steps[|steps| - 1];
      if step.Producer? && ProducerAt(Run(Empty<T>(), before), step.t).PushLocked?
      then LinkedArguments(before) + [Argument(before, step.t)]
      else LinkedArguments(before)
  }

  function Bringing<T>(l: Producer<T>): Option<T> {
    match l
    case PushReady(_, x) => Some(x)
    case PushLocked(_, x) => Some(x)
    case _ => None
  }

  lemma KeepsBringing<T>(s: Queue<T>, step: Step<T>, t: nat)
    ensures var l, l' := ProducerAt(s, t), ProducerAt(Apply(s, step), t);
            Bringing(l').Some? ==>
              Bringing(l') == if step.Push? && step.t == t && l.Outside? then Some(step.data) else Bringing(l)
  {
    if step.Consumer? {
      assert Apply(s, step).producers == s.producers;
    }
  }

  /** Under every interleaving a push keeps the value it was called with until its node is linked. */
  lemma {:induction false} EveryPushCarriesItsOwn<T>(steps: seq<Step<T>>, t: nat)
    ensures var l := ProducerAt(Run(Empty<T>(), steps), t); Bringing(l).Some? ==> Bringing(l) == Argument(steps, t)
  {
    if steps != [] {
      EveryPushCarriesItsOwn(steps[..|steps| - 1], t);
      KeepsBringing(Run(Empty<T>(), steps[..|steps| - 1]), steps[|steps| - 1], t);
    }
  }

  lemma LinkAppends<T>(s: Queue<T>, step: Step<T>)
    requires Inv(s)
    ensures Apply(s, step).pushed
         == if step.Producer? && ProducerAt(s, step.t).PushLocked? then s.pushed + [ProducerAt(s, step.t).data]
            else s.pushed
  {
    match step
    case Push(_, _) =>
    case Producer(t) =>
      if ProducerAt(s, t).PushLocked? {
        assert ProducerOk(s, t) && MineOk(s, t);
      }
    case Consumer => assert ConsumerStep(s).pushed == s.pushed;
  }

  /** Under every interleaving what was pushed is, in the order of the links, what the calls were called with. */
  lemma {:induction false} PushedIsArguments<T>(steps: seq<Step<T>>)
    ensures Wrapped(Run(Empty<T>(), steps).pushed) == LinkedArguments(steps)
  {
    if steps != [] {
      var before, step := steps[..|steps| - 1], steps[|steps| - 1];
      PushedIsArguments(before);
      RunKeepsInv(before);
      LinkAppends(Run(Empty<T>(), before), step);
      if step.Producer? {
        EveryPushCarriesItsOwn(before, step.t);
      }
    }
  }

  // ---------------------------------------------------------------- the object

  /** The queue as an object called by one thread at a time: the lock and the interleaving are in the machine above. */
  class QueueMPSC<T(0)> {
    const head: ListNode<T>
    var tail: ListNode<T>
    ghost var nodes: seq<ListNode<T>>

    ghost predicate Valid()
      reads this, nodes
    {
      nodes != [] && head == nodes[0] && tail == nodes[|nodes| - 1] && AreLinked(nodes)
    }

    /** The values behind the dummy node. */
    ghost function Held(): seq<T>
      requires Valid()
      reads this, nodes
    {
      Data(nodes[1..])
    }

    constructor ()
      ensures Valid() && Held() == [] && fresh(nodes)
    {
      var dummy := new ListNode<T>();
      head, tail := dummy, dummy;
      nodes := [dummy];
    }

    method Push(data: T)
      requires Valid()
      modifies this`tail, this`nodes, tail
      ensures Valid() && old(nodes) <= nodes && fresh(nodes[|old(nodes)|..])
      ensures Held() == old(Held()) + [data]
    {
      var newNode := new ListNode<T>();
      newNode.data := data;
      tail.next := newNode;
      tail := newNode;
      nodes := nodes + [newNode];
    }

    method IsEmpty() returns (empty: bool)
      requires Valid()
      ensures empty <==> Held() == []
    {
      assert |nodes| > 1 ==> head.next == nodes[1];
      empty := true;
      if head.next != null {
        empty := false;
      }
    }

    /** The whole list comes off, null-terminated and disjoint from what the queue keeps. */
    method Flush() returns (list: ListNode?<T>, ghost detached: seq<ListNode<T>>)
      requires Valid()
      modifies this`tail, this`nodes, head
      ensures Valid() && Held() == []
      ensures list == if detached == [] then null else detached[0]
      ensures AreLinked(detached) && Data(detached) == old(Held())
      ensures forall node :: node in detached ==> node !in nodes
    {
      list, detached := null, [];
      var empty := IsEmpty();
      if empty {
        return;
      }
      assert head.next == nodes[1];
      list, detached := head.next, nodes[1..];
      assert forall i :: 0 <= i < |detached| ==> detached[i] == nodes[i + 1];
      head.next := null;
      tail := head;
      nodes := [head];
    }
  }

  /** The dispatcher's loop over a flushed list: takes the value of each node, reads its link and then deletes it.  It
      handles all the values in order, deletes every node once, and touches no node after its deletion. */
  method Traverse<T(0)>(list: ListNode?<T>, ghost nodes: seq<ListNode<T>>)
    returns (handled: seq<T>, ghost deleted: seq<ListNode<T>>)
    requires AreLinked(nodes) && list == if nodes == [] then null else nodes[0]
    ensures handled == Data(nodes) && deleted == nodes
  {
    handled, deleted := [], [];
    var node := list;
    ghost var k := 0;
    while node != null
      invariant 0 <= k <= |nodes| && node == (if k == |nodes| then null else nodes[k])
      invariant handled == Data(nodes)[..k] && deleted == nodes[..k]
      decreases |nodes| - k
    {
      assert node !in deleted;
      var temp := node;
      handled := handled + [node.data];
      node := node.next;
      deleted := deleted + [temp];
      k := k + 1;
    }
  }
}
