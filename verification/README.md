# The matching engine and its concurrent queues, modelled in Dafny

The project models a limit-order matching engine: each symbol has one book with two price-ordered sides, a central order
book routes new orders and cancels by symbol to the work queue of that symbol's worker thread, and workers match, cancel
and report. Underneath are four hand-written concurrent queues. Both layers are modelled and proved.

**The engine.** `orders`, `books` and `matching` give an order, a book (both sides sorted by price, stable under
insertion) and the matching loop as values; `any_quantity` is the loop on orders of any quantity. `sweep`,
`symbol_runs`, `order_lives`, `priority`, `ledger` and `order_reports` prove what the loop and any run of one symbol's
tasks keep. `trading_system` is the multithreaded engine as interleaved actors: sessions, the dispatcher and one worker
per queue, one step per access to shared state; a step that is not enabled leaves the state alone, so a run is any
sequence of steps. `system_safety`, `order_flow`, `report_streams`, `client_streams`, `provenance`, `answers`,
`client_views`, `symbol_safety`, `retry`, `single_threaded`, `equivalence` and `drained_runs` prove what every such run
keeps, and that a drained run agrees with the single-threaded mode. `order_book`, `thread_pool`, `central_order_book`
and `engine` are the classes, in the source's imperative form. Every method is proved against the value-level functions;
`Engine` carries the actor machine as ghost state, each call being some of its steps taken back to back, so what holds
of every interleaving holds of the objects.

**The queues.** `spsc_ring`, `two_lock_queue`, `mpsc_queue` and `bounded_ring` each hold a step-level machine (one step
per shared load or store, or per critical section), theorems about every interleaving, and the class. `shared_ring` is
the single-producer ring with any number of producers.

How things are represented: prices are `real`, quantities `int`; a container's order objects are values in a `seq`, best
first; `Order.arrival` is a specification tag that the dispatcher stamps and on which nothing branches; an order's log
is the sequence of its events, `Entered` when it goes into a book and `Sent` for each report. Inserted orders have a
positive quantity (`FreshOrder`): the engine divides by executed plus traded quantity. `std::multimap::insert` places an
equal key at the end of its range (section 23.2.4 of ISO/IEC 14882:2011).

Four places where the code does something a reader might not expect:

- A cancel for a symbol that is not configured goes to queue 0, and executing it creates that symbol's book; from then
  on new orders for the symbol are accepted instead of being rejected as not supported. `RejectedExactly` gives the
  exact condition and `PhantomSymbol` the run.
- Between the two tail writes of an enqueue the tail pointer of the two-lock queue can point to a deleted node.
  `TailDanglesExactly` says when, for every run, and `TailCanDangle` gives one. It is never followed in that state
  (`TwoLockQueues.EveryRunIsFifo`).
- A worker that submits an unfound cancel again is a second producer on a ring made for one. `OverlapCanLose` is a run
  in which two calls of `tryPush` return true and one value is gone; `NothingLostExactly` says, for every run of any
  number of producers, which steps lose something. Calls that do not overlap lose nothing
  (`ExclusiveCallsLoseNothing`), but not only those (`OverlapCanBeHarmless`); and when cancels find their orders, no
  worker submits at all (`OnlyTheDispatcherSubmits`).
- A cancel removes the first order with its two identifiers, which need not be unique: `CancelIsExact` says which entry
  goes, and that it is the one flagged and reported.

## Model

| member | source | states |
|---|---|---|
| Orders.ExecuteConserves | source/order_matcher/order.cpp:22-32 | a fill moves quantity from open to executed, keeps their sum and the order's identity, and adds exactly price times quantity to average times executed |
| Orders.NewOrder | source/order_matcher/order.cpp:11-20 | each argument in its own field; fully open, unexecuted, and with a positive quantity fit to rest in a book |
| Orders.OrderEntry.constructor | source/order_matcher/order.cpp:11-20 | a new order is fully open, unexecuted and not cancelled |
| Orders.OrderEntry.Execute | source/order_matcher/order.cpp:22-32 | the in-place updates are the value-level fill; quantity and notional are conserved |
| Orders.OrderEntry.Cancel | source/order_matcher/order.h:22 | sets the cancelled flag and assigns no other field |
| Orders.CancelOnlyFlags | source/order_matcher/order.h:22 | every field other than the flag, one by one, is the same before and after |
| Books.UpperBound | source/order_matcher/order_book.cpp:28-38 | where the multimap inserts: after every key that is not worse, before the first worse one |
| Books.InsertKeepsSide | source/order_matcher/order_book.cpp:28-38 | insertion keeps a side sorted, of one side, with only live orders, and adds exactly the one order |
| Books.InsertKeepsTimeOrder | source/order_matcher/order_book.cpp:28-38 | a later arrival never overtakes an equal price: strict price-time order is kept |
| Books.FindOn | source/order_matcher/order_book.cpp:40-66 | the first entry with that owner and that client ID, or none exactly when no entry has both |
| Books.EraseRemovesFound | source/order_matcher/order_book.cpp:68-95 | the second search of a cancel hits the entry just flagged, even when identifiers are shared, and removes only it |
| Matching.TradeBook | source/order_matcher/order_book.cpp:118-148 | every iteration leaves fewer resting orders, so the loop terminates, and leaves a valid book |
| Matching.QuantitiesMustBePositive | source/order_matcher/order_book.cpp:97-113 | the first trade of two new orders divides by something and brings both nearer to filled exactly when both quantities are positive; how it fails for zero and for negative ones |
| Matching.MatchAll | source/order_matcher/order_book.cpp:118-148 | matching ends with the book uncrossed or one-sided |
| Matching.MatchAppends | source/order_matcher/order_book.cpp:118-148 | matching only appends to what was reported before, and what it appends depends on the book alone |
| AnyQuantity.TradeFillsOne | source/order_matcher/order_book.cpp:97-113 | trading the smaller open quantity fills exactly the order, or both orders, that had it, whatever the signs |
| AnyQuantity.MatchAny | source/order_matcher/order_book.cpp:118-148 | the loop ends, with the book uncrossed, for orders of any quantity and whatever a division by zero gives |
| AnyQuantity.MatchAnyConserves | source/order_matcher/order_book.cpp:97-148 | for orders of any quantity, open demand minus open supply is unchanged by matching |
| AnyQuantity.PositiveIsMatchAll | source/order_matcher/order_book.cpp:118-148 | on a valid book that loop is the engine's matching: same book, same reports |
| Matching.NoPriceTradesMore | source/order_matcher/order_book.cpp:97-148 | no single clearing price would trade more than matching does |
| Matching.SomePriceTradesAsMuch | source/order_matcher/order_book.cpp:97-148 | some clearing price trades exactly as much |
| Matching.MatchingIsOptimal | source/order_matcher/order_book.cpp:97-148 | on any book, however crossed, the traded quantity is the maximum over all prices of min(demand, supply) |
| Sweep.InsertAndMatchIsSweep | source/order_matcher/order_book.cpp:28-148 | on an uncrossed book insertion plus the loop is the simple one-order sweep: same book, same reports |
| Sweep.SweepConsumesPrefix | source/order_matcher/order_book.cpp:118-148 | a sweep consumes a prefix of the opposite side, within the limit, plus at most one partly filled order, and stops only when filled or out of price |
| Sweep.TakerTradesAlways | source/order_matcher/order_book.cpp:118-148 | the new order is a party to every trade of its sweep |
| Sweep.SweepConserves | source/order_matcher/order_book.cpp:118-148 | what the new order gained the opposite side lost |
| Sweep.NewOrderOnlySweeps | source/order_matcher/order_book.cpp:28-148 | all of that stated of the engine itself, and no other order on the new order's own side changes |
| SymbolRuns.Run | source/order_matcher/central_order_book.cpp:83-163 | after any sequence of new-order and cancel tasks the book is valid and uncrossed |
| SymbolRuns.CancelIsExact | source/order_matcher/central_order_book.cpp:147-153 | a cancel finds an order exactly if one on its side has its owner and client ID; it reports the first such, flagged, as CANCELED and removes that entry alone; one that finds none changes nothing |
| SymbolRuns.TradeIsTwoAdvances | source/order_matcher/order_book.cpp:97-148 | a trade is one legal report for the best bid and one for the best ask, bid first |
| OrderLives.AdvanceKeepsLives | source/order_matcher/order_book.cpp:118-148 | every report keeps the book equal to the latest states of exactly the orders whose lives are not over |
| OrderLives.EnterKeepsLives | source/order_matcher/order_book.cpp:28-38 | so does every insertion |
| Priority.AdvanceRespectsPriority | source/order_matcher/order_book.cpp:118-148 | a new fill never goes to an order while a better-ranked one is still open |
| Priority.EnteredOrderHasAFate | source/order_matcher/central_order_book.cpp:83-153 | an order that entered is still in the book in its latest state, or has had its terminal report |
| Priority.RunIsSound | source/order_matcher/central_order_book.cpp:83-163 | every run of numbered tasks keeps every order's life legal, the book in step, and price-time priority over the whole log |
| Ledger.TradeBalances | source/order_matcher/order_book.cpp:97-148 | a trade keeps the books balanced: same quantity and same money on both sides |
| Ledger.RunBalances | source/order_matcher/central_order_book.cpp:83-163 | over any run and on each side: entered quantity = open + traded + cancelled, with equal volume and notional on the two sides |
| OrderReports.LifeIsStream | source/order_matcher/central_order_book.cpp:96-106 | in a legal life only the last report is terminal, executed quantities strictly increase over fills, open + executed = quantity, FILLED exactly when nothing is open |
| OrderReports.LifeCancelsCleanly | source/order_matcher/central_order_book.cpp:147-151 | in a legal life a CANCELED report repeats every field of the event before it but the flag, only it has the flag, and as long as nothing is executed there is no average and no last price |
| OrderReports.AverageIsExact | source/order_matcher/order.cpp:22-32 | the running average times executed quantity is the money paid over all fills |
| OrderReports.AveragePriceIsFair | source/order_matcher/order_book.cpp:97-113 | a seller's average is exactly its limit; a buyer's lies between its cheapest fill and its limit |
| SystemSafety.HomeIsFirstMention | source/order_matcher/central_order_book.cpp:23-41 | a symbol's queue is the position of its first mention among the thread names, queue 0 if it has none |
| SystemSafety.SubmitLandsAtHome | source/concurrent/thread_pool.cpp:76-84 | a submission lands at the back of the symbol's queue and never throws |
| SystemSafety.StepKeepsRouted | source/order_matcher/central_order_book.cpp:121-138 | every step keeps every task and report with its symbol's worker |
| SystemSafety.ExecAppends | source/order_matcher/central_order_book.cpp:83-112 | a task does the same on the live book and on the symbol's own history |
| SystemSafety.StepKeepsBooks | source/order_matcher/central_order_book.cpp:83-163 | every live book stays what its symbol's own tasks make of it, whatever other workers do |
| SystemSafety.BookChangesOnlyAtHome | source/concurrent/thread_pool.cpp:95-119 | a book changes only when its home worker executes a task of its symbol |
| OrderFlow.StepKeepsMessages | source/server/server_incoming_message_dispatcher.h:72-98 | every pushed message is taken up, in the detached batch or queued, in push order |
| OrderFlow.StepKeepsNumbered | source/order_matcher/central_order_book.cpp:53-81 | accepted orders are numbered in dispatch order through queues and workers |
| OrderFlow.StepFlows | source/concurrent/thread_pool.cpp:76-119 | a symbol's tasks executed, then those in its pipeline, are those accepted, in order |
| ReportStreams.HistoryIsSound | source/order_matcher/central_order_book.cpp:83-163 | in every reachable state every symbol's history has legal lives and respects priority |
| ReportStreams.StepKeepsReports | source/order_matcher/central_order_book.cpp:96-106 | per symbol, reports sent and then reports still unsent are exactly its history's reports, in order |
| ReportStreams.ReportHasTask | source/order_matcher/central_order_book.cpp:96-106 | every report of a worker is about an order that was accepted and executed |
| ClientStreams.StepKeepsAnnounced | source/order_matcher/central_order_book.cpp:67-75 | no fill or cancel report precedes its order's acceptance, and no order is announced twice |
| ClientStreams.EveryRunIsSafe | source/order_matcher/central_order_book.cpp:53-163 | the whole system invariant holds after every interleaving |
| ClientStreams.EveryOrdersStreamIsOk | source/order_matcher/central_order_book.cpp:53-153 | under every interleaving an order's report stream is one REJECTED, or ACCEPTED, then PARTIALs with strictly increasing executed quantity, then at most one FILLED or CANCELED and nothing after it |
| Answers.EveryOrderIsAnswered | source/order_matcher/central_order_book.cpp:53-81 | under every interleaving the stream of an announced order begins with that very order, equal to the pushed one in every field but its number: ACCEPTED exactly if a task with the number was submitted, else REJECTED; every other number has no report |
| Provenance.EveryTaskIsTheClients | source/server/server_incoming_message_dispatcher.h:79-90 | under every interleaving an accepted new-order task carries the pushed order of its number, equal in every field but the number, and an accepted cancel has owner, symbol, side and client ID of a cancel message taken up |
| Provenance.EveryCancelIsPassedOn | source/server/server_incoming_message_dispatcher.h:87-90 | the cancels accepted are, one by one and in order, the cancel messages taken up |
| Provenance.EveryReportIsTruthful | source/order_matcher/central_order_book.cpp:53-153 | every outgoing report carries the terms of the pushed order it is numbered with; ACCEPTED and REJECTED repeat that order in every field but the number; a CANCELED order has owner, client ID, symbol and side of a cancel message taken up; texts are as the source gives them |
| Provenance.EveryRestingOrderIsTheClients | source/order_matcher/central_order_book.cpp:89 | every resting order is on its own symbol's book and side, on the terms of the pushed order of its number |
| ClientViews.EveryStreamTells | source/order_matcher/central_order_book.cpp:53-153 | under every interleaving an order's stream begins with the pushed order itself, keeps its terms, has a cancellation change nothing but the flag since the report before it, and no average or last price before a fill |
| ClientViews.SingleStreamsTell | source/order_matcher/central_order_book.cpp:76-79 | in the single-threaded mode every order is answered, ACCEPTED exactly if its symbol is configured, its stream is legal and tells the same, and every report is truthful |
| ClientViews.EngineStreamsTell | source/order_matcher/central_order_book.cpp:53-153 | the same of the engine object's outgoing messages, and its queued tasks are the clients' |
| SymbolSafety.EverySymbolIsSafe | source/order_matcher/central_order_book.cpp:53-163 | in every reachable state each book is its own history's, uncrossed, sound and balanced, and the reports sent are an initial part of the history's |
| SymbolSafety.OneWorkerPerSymbol | source/order_matcher/central_order_book.cpp:65 | all tasks of a symbol sit in one fixed queue, are run by one worker, and its new orders run in acceptance order, none lost or repeated |
| SymbolSafety.KnownExactly | source/order_matcher/central_order_book.cpp:147 | a symbol has a book exactly when it was configured or a task has been executed on it |
| SymbolSafety.RejectedExactly | source/order_matcher/central_order_book.cpp:57-63 | "Symbol not supported" is answered exactly to a symbol neither configured nor touched by an executed task |
| Retry.EveryRunIsInOrder | source/concurrent/thread_pool.cpp:101-107 | a worker executes exactly what it takes from its queue, in order |
| Retry.ExecutedCancelReports | source/order_matcher/central_order_book.cpp:147-153 | a cancel that a worker runs takes out and reports the first order on its side of its symbol's book with its owner and client ID |
| Retry.ExecutedCancelIsPutBack | source/order_matcher/central_order_book.cpp:155-160 | if no order there has both, the book stays and that very cancel is put back |
| Retry.EveryRunPutsBackWhatItTook | source/order_matcher/central_order_book.cpp:155-160 | under every interleaving what a worker puts back is the task it took last |
| Retry.RetryComesAfterTheQueue | source/order_matcher/central_order_book.cpp:155-160 | a rescheduled cancel comes round after exactly the tasks queued before it, in order |
| Retry.RetryFindsQueuedOrder | source/order_matcher/central_order_book.cpp:155-160 | if its order was among them and has not been filled or cancelled by then, it is in the book, and the retry finds the first order with both identifiers: that one, or one in front of it that shares them |
| SingleThreaded.SingleIsMadeOfHistories | source/order_matcher/central_order_book.cpp:76-79 | the single-threaded mode does to each symbol what its own tasks do, in message order |
| Equivalence.RunningCancelFinds | source/order_matcher/central_order_book.cpp:147 | if all cancels find their orders one at a time, every cancel a worker runs finds its order |
| Equivalence.EveryRunIsInStep | source/order_matcher/central_order_book.cpp:72-79 | every interleaving of such messages stays in step with the single-threaded decisions |
| Equivalence.OnlyTheDispatcherSubmits | source/order_matcher/central_order_book.cpp:155-160 | in such runs no worker ever submits a task: the dispatcher is every task queue's only producer |
| Equivalence.MultithreadedEqualsSingleThreaded | source/order_matcher/central_order_book.cpp:53-153 | once drained, every interleaving ends with exactly the books, the per-symbol fill and cancel reports and the announcements of the single-threaded mode |
| DrainedRuns.EveryScriptDrains | source/order_matcher/central_order_book.cpp:53-153 | the single-threaded mode is one of the interleavings: every message sequence whose cancels find their orders one at a time has a run that pushes exactly it, drains, and ends with the same books and the very same outgoing sequence |
| DrainedRuns.PhantomSymbol | source/order_matcher/central_order_book.cpp:128 | a run in which a cancel makes an unconfigured symbol acceptable |
| OrderBooks.OrderBook.Insert | source/order_matcher/order_book.cpp:28-38 | any order goes in at its price's place; on a valid book with a live order it is the value-level insertion and the book stays valid |
| OrderBooks.OrderBook.Find | source/order_matcher/order_book.cpp:40-66 | the search loop returns the position of the first order with that owner and client ID, and false exactly when there is none |
| OrderBooks.OrderBook.Erase | source/order_matcher/order_book.cpp:68-95 | the search-and-erase loop removes the first order on the order's side with its owner and client ID, or nothing when there is none |
| OrderBooks.OrderBook.CancelAt | source/order_matcher/central_order_book.cpp:149 | flagging through the found pointer sets that entry's flag and changes nothing else of it or of any other |
| OrderBooks.OrderBook.MatchTwoOrders | source/order_matcher/order_book.cpp:97-113 | both orders execute the smaller open quantity at the ask's price |
| OrderBooks.OrderBook.TradeBest | source/order_matcher/order_book.cpp:127-141 | one iteration trades the two best orders and drops those that are filled |
| OrderBooks.OrderBook.ProcessMatching | source/order_matcher/order_book.cpp:118-148 | the loop terminates uncrossed with the value-level book, appends the processed orders in order, and returns whether the queue is non-empty |
| OrderBooks.OrderBook.IsEmpty | source/order_matcher/order_book.h:29 | true exactly when both sides are empty |
| ThreadPools.ThreadPool.constructor | source/concurrent/thread_pool.cpp:38-53 | one empty queue per thread name |
| ThreadPools.ThreadPool.SubmitTask | source/concurrent/thread_pool.cpp:76-84 | throws exactly for an index out of range, else appends to that queue alone |
| ThreadPools.ThreadPool.TryPop | source/concurrent/thread_pool.cpp:106 | takes the oldest task of that queue alone, or nothing exactly when it is empty |
| CentralOrderBooks.NewOrderDone | source/order_matcher/central_order_book.cpp:88-106 | inserting into the dictionary's book, matching and sending is the value-level task |
| CentralOrderBooks.CancelDone | source/order_matcher/central_order_book.cpp:147-160 | searching the dictionary's book, then cancelling what is found or submitting again, is the value-level task |
| CentralOrderBooks.CentralOrderBook.FindAndCancel | source/order_matcher/central_order_book.cpp:147-160 | on a symbol with a book: the order found is flagged, reported and erased, or else the cancel is submitted again |
| CentralOrderBooks.CentralOrderBook.constructor | source/order_matcher/central_order_book.cpp:23-41 | one empty book per distinct symbol, repeated names keep their first queue |
| CentralOrderBooks.CentralOrderBook.Entry | source/order_matcher/central_order_book.cpp:89 | indexing gives the symbol's own book, a new empty one if it had none |
| CentralOrderBooks.CentralOrderBook.AddOrder | source/order_matcher/central_order_book.cpp:53-81 | an unknown symbol's order goes out as it came, REJECTED with "Symbol not supported", and nothing is submitted; otherwise it goes out as it came, ACCEPTED, and one task goes to the symbol's queue |
| CentralOrderBooks.CentralOrderBook.RejectOrder | source/order_matcher/central_order_book.cpp:114-119 | exactly one REJECTED report with the message |
| CentralOrderBooks.CentralOrderBook.CancelOrder | source/order_matcher/central_order_book.cpp:121-138 | submits to the symbol's queue, entering an unknown symbol with queue 0 |
| CentralOrderBooks.CentralOrderBook.TaskNewOrder | source/order_matcher/central_order_book.cpp:83-112 | the symbol's book and the reports sent are the value-level task's; nothing else changes |
| CentralOrderBooks.CentralOrderBook.SendFills | source/order_matcher/central_order_book.cpp:98-106 | the drain loop sends FILLED or PARTIAL for every processed order, in order |
| CentralOrderBooks.CentralOrderBook.TaskCancelOrder | source/order_matcher/central_order_book.cpp:140-163 | cancels and reports the order found, or submits the cancel again |
| Engines.Handles | source/server/server_incoming_message_dispatcher.h:79-95 | on the shared state the dispatcher's steps for one message are the central order book's operation |
| Engines.Turn | source/concurrent/thread_pool.cpp:101-114 | on the shared state a worker's steps for one turn are the central order book's task body |
| Engines.Engine.PushMessage | source/server/server_incoming_message_dispatcher.h:39-42 | the message goes to the back of the queue |
| Engines.Engine.DispatcherPass | source/server/server_incoming_message_dispatcher.h:72-98 | a pass handles the whole flushed list in order, leaves the queue empty and pushes nothing itself |
| Engines.Engine.WorkerTurn | source/concurrent/thread_pool.cpp:103-114 | a turn takes the oldest task and carries it out, or does nothing exactly when there is none; it takes over only new objects, so turns follow one another |
| Engines.EngineStreamsAreOk | source/order_matcher/central_order_book.cpp:53-153 | whatever was called, every order's outgoing reports form a legal stream |
| RingArithmetic.ModDistinct | source/concurrent/ring_buffer_spsc_lockfree.hpp:69-72 | items less than a capacity apart never share a slot |
| RingArithmetic.ModNext | source/concurrent/ring_buffer_spsc_lockfree.hpp:69-72 | incrementing an index is the slot of the next item |
| SpscRings.StepKeepsInv | source/concurrent/ring_buffer_spsc_lockfree.hpp:33-65 | every load and store keeps the ring invariant, stale views included |
| SpscRings.EveryRunIsFifo | source/concurrent/ring_buffer_spsc_lockfree.hpp:33-65 | in every interleaving popped is a prefix of pushed, at most capacity - 1 values are held, each intact in its slot |
| SpscRings.EveryAccessIsOrdered | source/concurrent/ring_buffer_spsc_lockfree.hpp:37-62 | a slot is written only after its last value was seen read, and read only after its value was seen written |
| SpscRings.StepsRefineFifo | source/concurrent/ring_buffer_spsc_lockfree.hpp:33-65 | every step of every interleaving is a step of an abstract queue: storing the write index appends that tryPush's value, storing the read index removes the front, which that tryPop hands out, nothing else changes the contents |
| SpscRings.EveryPushCarriesItsOwn | source/concurrent/ring_buffer_spsc_lockfree.hpp:33-45 | in every interleaving a tryPush under way holds the value it was called with |
| SpscRings.PushedIsArguments | source/concurrent/ring_buffer_spsc_lockfree.hpp:33-45 | what was pushed is, in order, what the calls that returned true were called with |
| SpscRings.PushRefusalIsHonest | source/concurrent/ring_buffer_spsc_lockfree.hpp:35-44 | tryPush returns false exactly when, by the read index it loaded, capacity - 1 values were held |
| SpscRings.PopRefusalIsHonest | source/concurrent/ring_buffer_spsc_lockfree.hpp:54-59 | tryPop returns false exactly when, by the write index it loaded, the ring was empty |
| SpscRings.PushOutcome | source/concurrent/ring_buffer_spsc_lockfree.hpp:33-45 | the five steps of one undisturbed tryPush, with its refusal |
| SpscRings.PopOutcome | source/concurrent/ring_buffer_spsc_lockfree.hpp:52-65 | the five steps of one undisturbed tryPop, with its refusal |
| SpscRings.RingBufferSPSCLockFree.TryPush | source/concurrent/ring_buffer_spsc_lockfree.hpp:33-45 | appends and returns true exactly when fewer than capacity - 1 values are held; it is a run of the machine |
| SpscRings.RingBufferSPSCLockFree.TryPop | source/concurrent/ring_buffer_spsc_lockfree.hpp:52-65 | takes the oldest value, or nothing exactly when empty; it is a run of the machine |
| SharedRings.MoveExactly | source/concurrent/ring_buffer_spsc_lockfree.hpp:33-65 | one load or store of any producer or the consumer loses or repeats nothing exactly when it overwrites no waiting value and stores the successor of the present write index, with room left and its own value in the slot |
| SharedRings.RefusalsAreHonest | source/concurrent/ring_buffer_spsc_lockfree.hpp:35-59 | tryPush gives up exactly with capacity - 1 values waiting, given a present write index; tryPop exactly on an empty ring |
| SharedRings.AcceptedIsArguments | source/concurrent/ring_buffer_spsc_lockfree.hpp:33-45 | with any number of producers, what was accepted is what the calls that returned true were called with |
| SharedRings.NothingLostExactly | source/concurrent/ring_buffer_spsc_lockfree.hpp:33-65 | for every run of any number of producers: accepted equals popped then waiting at all times exactly when every step was such a one |
| SharedRings.ExclusiveCallsLoseNothing | source/concurrent/ring_buffer_spsc_lockfree.hpp:33-45 | if no two calls of tryPush are ever both between loading and storing the write index, nothing is ever lost |
| SharedRings.OverlapCanLose | source/concurrent/ring_buffer_spsc_lockfree.hpp:33-45 | a run in which two overlapping calls both return true and one of the two values is gone |
| SharedRings.OverlapCanBeHarmless | source/concurrent/ring_buffer_spsc_lockfree.hpp:33-45 | a run in which calls overlap, all return true and nothing is lost, so not overlapping is enough but not needed |
| TwoLockQueues.LinkKeepsInv | source/concurrent/queue_mpmc.hpp:44-45 | linking through the tail pointer touches only a live node |
| TwoLockQueues.StepKeepsInv | source/concurrent/queue_mpmc.hpp:38-69 | every load, store, lock, unlock and delete keeps the list, the ownership of private nodes and the histories |
| TwoLockQueues.EveryRunIsFifo | source/concurrent/queue_mpmc.hpp:38-69 | in every interleaving no deleted node is touched, the list from head is acyclic and null-terminated, and enqueued = dequeued followed by the list |
| TwoLockQueues.StepsRefineFifo | source/concurrent/queue_mpmc.hpp:38-69 | every step is a step of an abstract queue: linking appends that enqueue's value, moving the head removes the front, which that dequeue returns, nothing else changes the contents |
| TwoLockQueues.EveryCallCarriesItsOwn | source/concurrent/queue_mpmc.hpp:38-69 | in every interleaving an enqueue keeps the value it was called with until its node is linked, and a dequeue keeps the value that was the front when it moved the head until it returns |
| TwoLockQueues.EnqueuedIsArguments | source/concurrent/queue_mpmc.hpp:38-46 | what was enqueued is, in the order of the links, what the calls were called with |
| TwoLockQueues.EmptyIsHonest | source/concurrent/queue_mpmc.hpp:52-59 | dequeue reads a null link exactly when everything linked so far was taken |
| TwoLockQueues.TailDanglesExactly | source/concurrent/queue_mpmc.hpp:38-69 | in every interleaving the tail pointer is off the last node exactly between the two tail writes, and points to a deleted node exactly when, between them, only the new node is left and the dequeue that took the old dummy has deleted it |
| TwoLockQueues.TailCanDangle | source/concurrent/queue_mpmc.hpp:44-45 | that condition is met by a run |
| TwoLockQueues.QueueMPMC.Enqueue | source/concurrent/queue_mpmc.hpp:38-46 | appends one value, keeping the list acyclic and null-terminated |
| TwoLockQueues.QueueMPMC.Dequeue | source/concurrent/queue_mpmc.hpp:48-69 | takes the first value and deletes the old dummy and nothing else, or does nothing exactly when empty; the list never leads to a deleted node |
| MpscQueues.StepKeepsInv | source/concurrent/queue_mpsc.hpp:44-88 | every step of producers, flush and traversal keeps both lists, the ownership of private nodes and the histories |
| MpscQueues.EveryRunIsFifo | source/concurrent/queue_mpsc.hpp:44-88 | in every interleaving no deleted node is touched, live and detached lists are disjoint and null-terminated, and the flushed lists followed by what is queued are what was pushed |
| MpscQueues.StepsRefineFifo | source/concurrent/queue_mpsc.hpp:44-88 | every step is a step of an abstract queue: linking appends that push's value, cutting takes the whole contents as the flush's result, nothing else changes them |
| MpscQueues.EveryPushCarriesItsOwn | source/concurrent/queue_mpsc.hpp:44-55 | in every interleaving a push keeps the value it was called with until its node is linked |
| MpscQueues.PushedIsArguments | source/concurrent/queue_mpsc.hpp:44-55 | what was pushed is, in the order of the links, what the calls were called with |
| MpscQueues.FlushNeverBlocks | source/concurrent/queue_mpsc.hpp:72-78 | after isEmpty said no, the wait's condition holds at once |
| MpscQueues.EmptyIsHonest | source/concurrent/queue_mpsc.hpp:57-66 | isEmpty is true exactly when everything linked so far was flushed |
| MpscQueues.QueueMPSC.Push | source/concurrent/queue_mpsc.hpp:44-55 | appends one value |
| MpscQueues.QueueMPSC.IsEmpty | source/concurrent/queue_mpsc.hpp:57-66 | true exactly when nothing is queued |
| MpscQueues.QueueMPSC.Flush | source/concurrent/queue_mpsc.hpp:68-88 | detaches the whole list, null-terminated, disjoint from what the queue keeps |
| MpscQueues.Traverse | source/server/server_incoming_message_dispatcher.h:77-96 | the traversal handles all values of the list in order, deletes every node once and touches none after its deletion |
| BoundedRings.StepKeepsInv | source/concurrent/ring_buffer_mpmc.hpp:38-67 | every critical section, notification and spurious wake-up keeps the ring and both wake-up counts |
| BoundedRings.EveryRunIsFifo | source/concurrent/ring_buffer_mpmc.hpp:38-67 | in every interleaving popped is a prefix of pushed, the count is their difference and at most the capacity, each value is in its slot |
| BoundedRings.StepsRefineFifo | source/concurrent/ring_buffer_mpmc.hpp:38-67 | every step is a step of an abstract queue: a producer appends its value or sleeps exactly on a full queue, a consumer gets the front or sleeps exactly on an empty one, nothing else changes the contents |
| BoundedRings.EveryCallCarriesItsOwn | source/concurrent/ring_buffer_mpmc.hpp:38-67 | in every interleaving a push keeps the value it was called with, however often it sleeps and whoever wakes it, until it stores it, and a pop has the value that was the front when it took it |
| BoundedRings.PushedIsArguments | source/concurrent/ring_buffer_mpmc.hpp:38-50 | what was pushed is, in order, what the calls were called with |
| BoundedRings.NoWakeUpIsLost | source/concurrent/ring_buffer_mpmc.hpp:38-67 | while a consumer sleeps, stored items are at most woken consumers plus undelivered notifications; symmetrically for producers and free slots |
| BoundedRings.NeverStuckForNothing | source/concurrent/ring_buffer_mpmc.hpp:42-56 | if everybody sleeps or is outside, consumers sleep only on an empty ring, producers only on a full one, never both |
| BoundedRings.RingBufferMPMC.Count | source/concurrent/ring_buffer_mpmc.hpp:32-36 | the number of stored values |
| BoundedRings.RingBufferMPMC.Push | source/concurrent/ring_buffer_mpmc.hpp:38-50 | the first turn of a call's wait, or a later one after a wake-up: asleep exactly when the ring is full, otherwise the value is appended, the mutex given up and one sleeping consumer woken; it is a run of the machine from an empty ring |
| BoundedRings.RingBufferMPMC.Pop | source/concurrent/ring_buffer_mpmc.hpp:52-67 | likewise: asleep exactly when the ring is empty, otherwise the oldest value is taken and one sleeping producer woken; it is a run of the machine from an empty ring |

## Left out

- Orders of zero or negative quantity, in the actor machine and the three members below: `source/server/server.cpp:195` casts `orderQty` without a check. The averages and what the book promises of a live order need positive quantities (`QuantitiesMustBePositive`); that the loop ends uncrossed and conserves does not, and is proved for any quantity (`AnyQuantity`), on values.
- Engines.Engine.PushMessage: new-order messages have a positive quantity.
- CentralOrderBooks.CentralOrderBook.AddOrder: orders have a positive quantity, although the source accepts or rejects by symbol only.
- CentralOrderBooks.CentralOrderBook.TaskNewOrder: orders have a positive quantity; `OrderBook.Insert` itself takes any.
- BoundedRings.RingBufferMPMC.Push: a call is one test of the wait's condition; a thread just calls it, and the wait loop is a sequence of calls by the same thread, the later ones after it was woken. `Elsewhere` stands for what other threads do outside their critical sections.
- BoundedRings.RingBufferMPMC.Pop: likewise.
- Floating-point rounding, NaN and machine integer overflow: prices are reals and quantities unbounded integers.
- The full C++ memory model: the single-producer ring has stale but monotone index views and ordered slot accesses; everywhere else loads see the latest store.
- The unsynchronised read and write of `m_next` in the two-lock queue (the two locks do not exclude each other) are atomic steps here.
- Concurrent access to the two `unordered_map`s from the dispatcher and the workers: each lookup or insertion is one atomic step.
- The bounded task queue: the system model uses atomic, unbounded first-in first-out queues. What the ring under a queue does with a worker as second producer is proved of the ring alone (`shared_ring`), where every load sees the latest store.
- Liveness of cancels and of `push` on a full queue: both retry for ever in the source, so only the conditional statements are made. `RingBufferSPSCLockFree::push`, a loop around `tryPush`, has no method here.
- The end of the matching engine at shutdown: workers and dispatcher simply stop, and queued work may be dropped.
- OrderBooks.OrderBook.CancelAt: returns the flagged order; the pointer into the container that `find` hands out is a position.
- OrderBooks.OrderBook.TradeBest: the references to the two best orders are copied out of the container and written back, because the multimap owns its orders by value; aliasing with other holders does not arise.
- CentralOrderBooks.CentralOrderBook.FlagAndErase: the actor machine takes the book update and the CANCELED report as two steps in that order, while the source enqueues the report between flagging and erasing; no other thread looks at the book meanwhile.
- Reuse of a deleted node's address by the allocator: allocation gives fresh nodes, and deleted ones are tracked.
- The condition variable of the multi-producer single-consumer queue: its notifications are not steps, because its wait never sleeps (`FlushNeverBlocks`).
- `OrderType`, which has one value, the `accept` visitors, `toString`, observers and the notification texts.
- FIX sessions, message conversion and the outgoing sender; thread creation, naming, pinning and yielding; logging, configuration and stopwatch utilities.
- A default book made with the default constructor has no symbol name; the name is not used by matching and is not modelled.
