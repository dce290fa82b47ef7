# Igloo in Dafny

A Dafny 4.11 model of the state-carrying parts of Igloo, a rollup built on the Solana virtual
machine, with proofs of what they promise over whole runs. `dafny verify dfyconfig.toml` checks
all of it.

The main part is the prio-graph transaction scheduler: a container of waiting transactions, a
look-ahead window of conflicting transactions, account locks that know which worker holds them,
and batches sent to and received from the workers.

| file | what it models |
|---|---|
| `ThreadSets.dfy`, `AccountLocks.dfy` | the 64-bit thread sets and the lock table, as a multiset of holds |
| `Container.dfy`, `InFlight.dfy`, `ReadWriteSets.dfy`, `PrioGraphs.dfy` | the bounded container, the in-flight tracker, the blocking set, and a stand-in for the prio-graph |
| `Protocol.dfy` | placing, sending, executing, finishing and completing as steps of a machine; parallel equals serial |
| `Coupling.dfy`, `Runs.dfy` | lock table, channels, results and tracked batches over whole runs |
| `Passes.dfy`, `Reasons.dfy` | one scheduling pass as a sequence of moves, its invariant, and why a transaction is left waiting |
| `Rounds.dfy` | the rounds of a pass: when a batch is sent, how many, and in which order transactions are placed |
| `Retries.dfy`, `Scheduler.dfy`, `Wrapper.dfy` | the scheduler itself, its results, and the wrapper around it |
| `Guarantees.dfy` | what follows for a user of the scheduler |
| `Forks.dfy` | fork pruning on a reorganisation |
| `TimeWindows.dfy`, `LoadSummary.dfy` | merging of time slices and the load they add up to |
| `MessageBuilder.dfy` | compiling account metas into a message, and decoding it |
| `Rollup.dfy` | the derive, batch and data-availability loop of the example |

How the scheduler is proved. `Runs.Run` says what a list of events makes of the protocol state,
the wiring and the holds, and `Passes.PassAfter` what a list of moves makes of a pass. The class
`PrioGraphScheduler` keeps both lists in ghost fields, and its methods are shown to add only
permitted events and allowed moves. Everything else is proved once, about every list, by
`Runs.RunStands`, `Passes.PassAfterInv`, `Reasons.PassJustified` and `Rounds.PassBatching`, and the theorems in
`Guarantees.dfy` follow for every state the methods can bring about. Workers are free: they
execute in any interleaving, and hand a batch back with any list of retryable indexes.

Results worth knowing:

- The retry scan handles any list of indexes, and retries its longest strictly increasing in-range
  prefix (`ScanIsLongestPrefix`); the rest of the list is lost without notice.
- `find_ancestors` does not end when the stop slot is 0 and the links lead to the genesis bank,
  which is its own parent (`storage/src/blockstore/process.rs:170-172`). The executor can pass 0
  (`executor/src/lib.rs:79`, `executor/src/lib.rs:134-138`). `GenesisLoops` gives an input, and
  `WalkEndsExactly` the exact condition.
- The load of a merged window without duration is 0/0. `InstantFails` gives an input,
  `CalculateThreadLoadSummary` says when the average is a number, and `PositiveExactly` puts that in
  terms of the updates.
- `clean_up` clears `unsigned_mutable_account` twice and `unsigned_readonly_accounts` never
  (`svm/executor/src/transaction/builder.rs:236-239`), and the header counts one program id however
  many instructions there are (line 129). `WritableExactly` says which keys of any message decode as
  writable; `LeftoverIsWritable` and `SecondProgramUncounted` give inputs.
- The sequence number of the runner is a byte. `AtMostOnceExactly` says how long an L1 head may
  last before an attribute is produced twice, and `ByteOverflows` gives a run; overflow is modelled
  as wrapping.
- A pass does not stop when every thread has its share of work: the `break` at
  `scheduler/src/impls/prio_graph_scheduler/scheduler.rs:229-231` leaves the inner loop only, and
  `try_schedule_transaction` allows all threads. It stops the round (`StopOrNarrow`), and each
  later round places at most one transaction (`FullPlacesOne`). The share is no bound, and none is claimed; but a pass that
  starts decides about everything it can (`RanOut`, `NeverIdle`).

Where code and comments disagree the model follows the code: `select_thread` compares compute
units first and transactions second, and knows no `chain_thread`
(`scheduler/src/impls/prio_graph_scheduler/scheduler.rs:415-443`).

Conventions. A panic, a failed assertion and `unreachable!` are preconditions, and each is shown
to hold wherever the scheduler calls. Filters, the transactions' effects, whether a block succeeds
and the transactions waiting in the stream are parameters. Lock counts, compute units, times and
slots are unbounded naturals; thread sets are 64-bit words, batch ids and the byte of the sequence
number wrap, and header counts saturate at 255. Floating point numbers are reals.

## Model

| member | source | states |
|---|---|---|
| `Protocol.ReachableInv` | scheduler/src/impls/prio_graph_scheduler/scheduler.rs:162-252 | In every state reached by placing, sending, executing, finishing and completing, in any interleaving: conflicting attempts in flight share a worker and are in batches it gets in lock order, workers go through their batches in order, and only executed batches are released. |
| `Protocol.ConflictsInOrder` | scheduler/src/impls/prio_graph_scheduler/scheduler.rs:162-252 | Of two conflicting transactions, the one that took its locks first is executed first. |
| `Protocol.StepIsSerial` | scheduler/src/impls/prio_graph_scheduler/scheduler.rs:162-252 | Each step of the protocol keeps the accounts equal to the serial outcome; the effects are arbitrary functions that read only listed accounts and change only writable ones. |
| `Protocol.ParallelIsSerial` | scheduler/src/impls/prio_graph_scheduler/scheduler.rs:162-252 | Parallel equals serial: at every moment of every interleaving, the accounts are what running the executed transactions one at a time in lock order makes of them. |
| `Protocol.QuiescentIsSerial` | scheduler/src/impls/prio_graph_scheduler/scheduler.rs:162-252 | Once everything placed is executed, the outcome is that of the whole lock order; the interleaving leaves no trace. |
| `Runs.RunStands` | scheduler/src/impls/prio_graph_scheduler/scheduler.rs:354-413 | After every run of scheduler and worker events: the lock holds are the locks of the transactions placed and not yet received back, each on its worker; channels, results and tracked batches carry exactly what was sent, each once; and the run is a run of the protocol. |
| `Coupling.ReleaseHolds` | scheduler/src/impls/prio_graph_scheduler/scheduler.rs:354-374 | Completing a batch gives back exactly the locks of its transactions: what is held before is what is held after plus the holds of the batch. |
| `Coupling.ExclusionGuards` | scheduler/src/impls/prio_graph_scheduler/scheduler.rs:572-580 | If taking the locks on a worker keeps mutual exclusion, every conflicting transaction in flight is on that worker. |
| `Coupling.Drained` | scheduler/src/impls/prio_graph_scheduler/scheduler.rs:354-413 | When no batch is open, in a channel or in a result, every batch has been executed and released, none is tracked and no lock is held. |
| `Guarantees.ExecutionIsSerial` | scheduler/src/impls/prio_graph_scheduler/scheduler.rs:162-252 | Parallel equals serial, stated for the scheduler object itself, in every state its methods can bring about. |
| `Guarantees.PlacedByPriority` | scheduler/src/impls/prio_graph_scheduler/scheduler.rs:105-252 | Of two transactions placed in a pass that conflict, the one placed later has the lower (priority, id), so its priority is at most that of the other. |
| `Guarantees.HigherGoesFirst` | scheduler/src/impls/prio_graph_scheduler/scheduler.rs:105-252 | Of two waiting transactions that conflict, if the one of lower priority is placed, the other was dropped by a filter or placed before it on the same worker. |
| `Guarantees.LowerIsLater` | scheduler/src/impls/prio_graph_scheduler/scheduler.rs:105-252 | In an order by priority, what comes later has no higher priority. |
| `Guarantees.PassIsSerialByPriority` | scheduler/src/impls/prio_graph_scheduler/scheduler.rs:105-252 | Whatever the interleaving and whatever was placed later: what was placed before the pass in lock order, then the transactions of the pass one at a time by falling priority, then the rest, has the effect of the run. |
| `Guarantees.RunIsPassByPass` | scheduler/src/impls/prio_graph_scheduler/scheduler.rs:67-278 | Of every run of the scheduler object: once everything is executed, the accounts are as if its passes had run one after another, each its transactions one at a time by falling priority. |
| `Guarantees.ByPriorityExists` | scheduler/src/impls/prio_graph_scheduler/scheduler.rs:105-252 | Every pass has such an order. |
| `Passes.ChainedNext` | scheduler/src/impls/prio_graph_scheduler/scheduler.rs:67-278 | A pass that begins where the last one ended extends the chain of passes that placed everything. |
| `Guarantees.BatchesAreConflictFree` | scheduler/src/impls/prio_graph_scheduler/scheduler.rs:168-251 | No batch holds two conflicting transactions; conflicting ones given to one worker are in batches it gets in lock order. |
| `Guarantees.BatchesAreSmall` | scheduler/src/impls/prio_graph_scheduler/scheduler.rs:214-220 | Every batch on its way to a worker carries between 1 and 128 transactions. |
| `Runs.RunSmallBatches` | scheduler/src/impls/prio_graph_scheduler/scheduler.rs:214-220 | No batch of any run holds more than 128 transactions. |
| `Runs.PlacedOnLeast` | scheduler/src/impls/prio_graph_scheduler/scheduler.rs:424-443 | In every run, each transaction goes to a worker that can take its locks and has, of all those, the least cost placed on it and not yet back, and then the fewest transactions; an idle worker is preferred to any with work that costs something. |
| `Runs.RunWork` | scheduler/src/impls/prio_graph_scheduler/scheduler.rs:386-413 | Conservation: after every run, what is tracked for a thread and what is in its open batch add up to the cost and the number of all that was placed on it and has not come back. |
| `Guarantees.CountersAreWork` | scheduler/src/impls/prio_graph_scheduler/in_flight_tracker.rs:44-84 | Between passes the two counters of a thread are the cost and the number of the transactions placed on it and not yet received back. |
| `Guarantees.LocksAreThoseInFlight` | scheduler/src/impls/prio_graph_scheduler/scheduler.rs:354-413 | The lock table stands for exactly the locks of the transactions in flight, and no account is write-locked on one worker while locked on another. |
| `Guarantees.NothingIsLeft` | scheduler/src/impls/prio_graph_scheduler/scheduler.rs:354-374 | When all results are in, the lock map is empty, every counter is zero, no batch is tracked, nothing is in flight, and everything placed was executed. |
| `Guarantees.FullIsBusy` | scheduler/src/impls/prio_graph_scheduler/scheduler.rs:73-89 | When no thread has room and the pass returns early, something is in flight. |
| `Guarantees.NeverIdle` | scheduler/src/impls/prio_graph_scheduler/scheduler.rs:67-278 | Progress: when a pass ends and transactions still wait, something is in flight, unless the pre-graph filter turned away a whole look-ahead window. |
| `Reordering.ReorderedReplay` | scheduler/src/impls/prio_graph_scheduler/scheduler.rs:105-252 | Two orders of the same transactions that agree on every conflicting pair have the same effect. |
| `Passes.PassAfterInv` | scheduler/src/impls/prio_graph_scheduler/scheduler.rs:105-252 | At every point of every pass: the window takes the queue from the top in order; exactly the popped nodes and the filtered have an outcome; states, attempts and the blocking set match the outcomes; a placed transaction follows every conflicting one of higher priority, on the same worker, unless that one was dropped by a filter; what is turned away before the graph is what the pre-graph filter refused, what is in the graph it let through, and of that exactly what the pre-lock filter refuses is dropped. |
| `Passes.HigherIsDecided` | scheduler/src/impls/prio_graph_scheduler/scheduler.rs:168-251 | When a node can be popped, every waiting transaction of higher priority that conflicts with it has been decided about. |
| `Passes.OpenIsFree` | scheduler/src/impls/prio_graph_scheduler/scheduler.rs:241-251 | A node that can be popped conflicts with nothing in a batch that is still being filled, because nodes are unblocked only after all batches are sent. |
| `Passes.BlockingCovers` | scheduler/src/impls/prio_graph_scheduler/scheduler.rs:551-580 | The blocking set includes every access of every transaction found unschedulable. |
| `Passes.RequeuedIsRest` | scheduler/src/impls/prio_graph_scheduler/scheduler.rs:257-265 | What is put back is what was waiting at the start less what was placed or dropped. |
| `Passes.SendRoom` | scheduler/src/impls/prio_graph_scheduler/scheduler.rs:386-413 | A pass sends fewer batches than transactions were waiting, so it needs at most that many batch ids. |
| `Rounds.PassBatching` | scheduler/src/impls/prio_graph_scheduler/scheduler.rs:168-251 | At every point of every pass: each round that is over sent every worker ceil(k/128) batches for the k transactions it placed there, all of 128 but perhaps the last; the round under way has sent only full ones, unless it is over too. |
| `Rounds.FullBetweenPlacements` | scheduler/src/impls/prio_graph_scheduler/scheduler.rs:214-220 | A batch sent between two placements of one round holds exactly 128 transactions. |
| `Rounds.ShortOnlyAtEnd` | scheduler/src/impls/prio_graph_scheduler/scheduler.rs:214-242 | Every batch sent holds 1 to 128 transactions; one with fewer than 128 is sent only when its round is over, and is the last that round sends to its worker. |
| `Rounds.PassIsCut` | scheduler/src/impls/prio_graph_scheduler/scheduler.rs:162-255 | A pass at whose end no batch is open is cut into rounds, each of which sent every worker ceil(k/128) batches for the k transactions it placed there. |
| `Rounds.OneRoundBatches` | scheduler/src/impls/prio_graph_scheduler/scheduler.rs:214-242 | If all that a pass placed was placed in one of its rounds, it sent each worker ceil(k/128) batches for the k transactions it placed there. |
| `Rounds.ApartBatches` | scheduler/src/impls/prio_graph_scheduler/scheduler.rs:162-242 | If no two waiting transactions conflict, all were in the window, and the first round ended for lack of nodes, then the pass decides about all of them and sends each worker ceil(k/128) batches. |
| `Rounds.RoundsFall` | scheduler/src/impls/prio_graph_scheduler/scheduler.rs:168-239 | In every pass, each round places its transactions in falling order of (priority, id), conflicts or not; what can still be popped comes after them. |
| `Rounds.RoundByPriority` | scheduler/src/impls/prio_graph_scheduler/scheduler.rs:168-239 | Of two transactions placed in one round, the earlier has no lower priority. |
| `Rounds.FullPlacesOne` | scheduler/src/impls/prio_graph_scheduler/scheduler.rs:222-236 | In every pass, a round that begins when no worker has less than its share placed on it and not yet back places at most one transaction. |
| `Reasons.EarlierIsHigher` | scheduler/src/impls/prio_graph_scheduler/scheduler.rs:105-252 | Conflicting transactions of a pass are decided about by falling priority. |
| `Reasons.PassJustified` | scheduler/src/impls/prio_graph_scheduler/scheduler.rs:551-580 | At every point of every pass, each transaction found unschedulable cannot be locked on any worker, or conflicts with one of higher priority that is itself unschedulable. |
| `Reasons.DroppedExactly` | scheduler/src/impls/prio_graph_scheduler/scheduler.rs:124-144 | With filters that look at one transaction at a time: among those decided about, a transaction is turned away before the graph if and only if the pre-graph filter refuses it, and at the lock step if and only if only the pre-lock filter does. |
| `Reasons.TopIsUnlockable` | scheduler/src/impls/prio_graph_scheduler/scheduler.rs:551-580 | Of the transactions found unschedulable, the one of highest priority cannot be locked on any worker, to the end of the pass. |
| `Reasons.UnlockableIsBusy` | scheduler/src/impls/prio_graph_scheduler/scheduler.rs:572-580 | A transaction no worker can lock is kept out by something in flight. |
| `Scheduler.RanOut` | scheduler/src/impls/prio_graph_scheduler/scheduler.rs:105-168 | When nothing can be popped any more, either everything that waited was decided about, or the pre-graph filter turned away exactly one window of transactions. |
| `Scheduler.PrioGraphScheduler.Schedule` | scheduler/src/impls/prio_graph_scheduler/scheduler.rs:67-278 | One pass: terminates; keeps the run going; ends with every batch sent, everything neither placed nor dropped waiting again and nothing lost for capacity, the container consistent, the pass cut into rounds that each sent as few batches as can be, and the summary counting the placed, unschedulable and pre-filtered. With room on some thread it places at most 100000, and ends only after that many, a window of pre-filtered transactions, or a decision about everything; with no room it does nothing. Every placement in every run is on the least loaded of all workers that can take the locks (`Runs.Chosen`). |
| `Scheduler.PrioGraphScheduler.WorkKnown` | scheduler/src/impls/prio_graph_scheduler/scheduler.rs:424-443 | The loads `select_thread` compares are the cost and the number of everything placed on the thread and not yet received back. |
| `Scheduler.PrioGraphScheduler.PassIfRoom` | scheduler/src/impls/prio_graph_scheduler/scheduler.rs:73-89 | Does nothing when no thread has less than its share of compute units in flight, and otherwise runs the pass to one of its three ends. |
| `Scheduler.ThreadsBelow` | scheduler/src/impls/prio_graph_scheduler/scheduler.rs:76-81 | The schedulable threads are those with less than the limit in flight. |
| `Scheduler.PrioGraphScheduler.ChunkedPops` | scheduler/src/impls/prio_graph_scheduler/scheduler.rs:105-150 | Fills the window from the top of the queue; while something waits, what left the queue is what the budget paid for; at the end the budget is used up or the queue empty. |
| `Scheduler.PrioGraphScheduler.TakeChunk` | scheduler/src/impls/prio_graph_scheduler/scheduler.rs:112-144 | Pops one chunk, and shares it between the graph and the filtered; a short chunk means an empty queue. |
| `Scheduler.PrioGraphScheduler.FilterChunk` | scheduler/src/impls/prio_graph_scheduler/scheduler.rs:133-144 | Every id of the chunk the filter answers true for goes to the graph, and every other one is counted as filtered and forgotten; its state is there when it is needed. |
| `Scheduler.PrioGraphScheduler.ScheduleNode` | scheduler/src/impls/prio_graph_scheduler/scheduler.rs:173-212 | The popped node is dropped, found unschedulable or placed, and its state is there, Unprocessed, when it is decided about. |
| `Scheduler.PrioGraphScheduler.NarrowSchedulable` | scheduler/src/impls/prio_graph_scheduler/scheduler.rs:222-232 | A thread with its share of work leaves the schedulable set; the round stops when it was the last. |
| `Scheduler.PrioGraphScheduler.StopOrNarrow` | scheduler/src/impls/prio_graph_scheduler/scheduler.rs:222-236 | After a placement, the schedulable set is exactly the threads with less than their share placed on them and not yet back, and the round stops if and only if there are none left or the pass has placed 100000. |
| `Scheduler.PrioGraphScheduler.FlushIfFull` | scheduler/src/impls/prio_graph_scheduler/scheduler.rs:214-220 | Sends the batch just added to if it holds 128, and nothing otherwise. |
| `Scheduler.PrioGraphScheduler.ScheduleRound` | scheduler/src/impls/prio_graph_scheduler/scheduler.rs:168-239 | Pops, greatest id first, until nothing can be popped, the pass has placed 100000, or a placement leaves no thread with room; sends a batch as soon as it holds 128 and no other; decides about every popped node, and lists exactly the popped ones for unblocking. |
| `Scheduler.PrioGraphScheduler.FinishRound` | scheduler/src/impls/prio_graph_scheduler/scheduler.rs:241-251 | Only when the round is over are the shorter batches sent, all of them before any popped node is unblocked; afterwards all popped nodes are unblocked and a new round begins. |
| `Scheduler.PrioGraphScheduler.RunPass` | scheduler/src/impls/prio_graph_scheduler/scheduler.rs:152-270 | The rounds come to an end, and as many transactions were placed as were sent. |
| `Scheduler.Requeue` | scheduler/src/impls/prio_graph_scheduler/scheduler.rs:257-265 | Pushing back the unschedulable and draining the graph restores the rest of the queue and drops nothing. |
| `Scheduler.DrainGraph` | scheduler/src/impls/prio_graph_scheduler/scheduler.rs:262-265 | Popping and unblocking until nothing is left moves every remaining node to the queue. |
| `Scheduler.SelectThread` | scheduler/src/impls/prio_graph_scheduler/scheduler.rs:424-443 | No candidate has fewer compute units, none with as many has fewer transactions, and among equals the lowest number wins. |
| `Scheduler.TryScheduleTransaction` | scheduler/src/impls/prio_graph_scheduler/scheduler.rs:538-591 | Filtered iff the filter says no; unschedulable iff it conflicts with the blocking set or no thread can take its locks and keep mutual exclusion, and then the blocking set grows by its accesses; otherwise the locks are taken on the least loaded of all threads that can. |
| `Scheduler.Batches.Add` | scheduler/src/impls/prio_graph_scheduler/scheduler.rs:208-212 | The four lists of a batch stay aligned with the transactions placed on the thread. |
| `Scheduler.Batches.TakeBatch` | scheduler/src/impls/prio_graph_scheduler/scheduler.rs:494-518 | Hands out exactly what was placed on the thread since its last batch, and leaves an empty batch. |
| `Scheduler.PrioGraphScheduler.SendBatch` | scheduler/src/impls/prio_graph_scheduler/scheduler.rs:386-413 | Sends what was placed, if anything, under an unused batch id, and tracks its size and cost. |
| `Scheduler.PrioGraphScheduler.SendBatches` | scheduler/src/impls/prio_graph_scheduler/scheduler.rs:378-382 | Afterwards no batch holds anything, and the number returned is what was placed and not yet sent. |
| `Scheduler.PrioGraphScheduler.constructor` | scheduler/src/impls/prio_graph_scheduler/scheduler.rs:37-49 | Starts an empty run with the given limit and a window of 2048; with a positive share for each thread there is room. |
| `Scheduler.ResultKnown` | scheduler/src/impls/prio_graph_scheduler/scheduler.rs:354-374 | The oldest result is of a tracked batch, carries what was sent, and its locks are held: no panic of `complete_batch` can happen. |
| `Scheduler.PrioGraphScheduler.CompleteBatch` | scheduler/src/impls/prio_graph_scheduler/scheduler.rs:354-374 | Stops tracking the batch and gives back exactly the locks of its transactions, on the thread it was tracked for. |
| `Scheduler.PrioGraphScheduler.TryReceiveCompleted` | scheduler/src/impls/prio_graph_scheduler/scheduler.rs:301-350 | Receives the oldest result: its locks are released, the retried transactions wait again, the others are forgotten, the books stay in order, and 0 is returned only when there was no result. |
| `Scheduler.PrioGraphScheduler.ReceiveCompleted` | scheduler/src/impls/prio_graph_scheduler/scheduler.rs:282-297 | Receives every result and returns the totals. |
| `Scheduler.PrioGraphScheduler.WorkerExecute` | scheduler/bin/scheduling_simulation.rs:94 | A worker may execute any transaction of the batch it works on; the run goes on. |
| `Scheduler.PrioGraphScheduler.WorkerFinish` | scheduler/bin/scheduling_simulation.rs:113-123 | A worker that has executed its batch hands it back unchanged, with any list of retryable indexes; the run goes on. |
| `Retries.ScanIsLongestPrefix` | scheduler/src/impls/prio_graph_scheduler/scheduler.rs:323-341 | Whatever the list of retryable indexes, the peeking scan retries its longest strictly increasing in-range prefix. |
| `Retries.ScanIsAll` | scheduler/src/impls/prio_graph_scheduler/scheduler.rs:323-341 | Every listed index is retried if and only if the list increases strictly and stays in range. |
| `Retries.RetryOrRemove` | scheduler/src/impls/prio_graph_scheduler/scheduler.rs:323-341 | Exactly the scanned transactions become Unprocessed again, with priority and cost, and are offered to the queue in order; exactly the others are removed; every state needed is there. |
| `Retries.SettlingKeepsTerms` | scheduler/src/impls/prio_graph_scheduler/transaction_state_container.rs:104-115 | Priority and cost survive the round trip. |
| `AccountLocks.ThreadAwareAccountLocks.constructor` | scheduler/src/impls/prio_graph_scheduler/thread_aware_account_locks.rs:57-68 | An empty table for 1 to 64 threads. |
| `AccountLocks.SchedulableIsMayLock` | scheduler/src/impls/prio_graph_scheduler/thread_aware_account_locks.rs:153-189 | The set offered for an account is exactly the threads that may take the lock; the assertion of the mixed case holds and the vacant case cannot be reached. |
| `AccountLocks.MayLockIsExclusion` | scheduler/src/impls/prio_graph_scheduler/thread_aware_account_locks.rs:112-134 | A thread may take every lock of a transaction if and only if doing so keeps mutual exclusion, repeated accounts included. |
| `AccountLocks.ThreadAwareAccountLocks.AccountsSchedulableThreads` | scheduler/src/impls/prio_graph_scheduler/thread_aware_account_locks.rs:112-134 | Returns the threads on which each single account can be locked, or `None` when there are none. |
| `AccountLocks.ThreadAwareAccountLocks.TryLockAccounts` | scheduler/src/impls/prio_graph_scheduler/thread_aware_account_locks.rs:77-93 | `None` if and only if no allowed thread could take all the locks and keep mutual exclusion; otherwise the selector chooses among all of those, exactly these holds are added, and no assertion fires. |
| `AccountLocks.ThreadAwareAccountLocks.UnlockAccounts` | scheduler/src/impls/prio_graph_scheduler/thread_aware_account_locks.rs:96-109 | Undoes a lock: exactly these holds are removed, and no panic fires as long as they are held. |
| `AccountLocks.ThreadAwareAccountLocks.LockAccounts` | scheduler/src/impls/prio_graph_scheduler/thread_aware_account_locks.rs:192-209 | Adds exactly the holds of the transaction. |
| `AccountLocks.ThreadAwareAccountLocks.WriteLockAccount` | scheduler/src/impls/prio_graph_scheduler/thread_aware_account_locks.rs:213-241 | Adds one write hold; the table again represents the holds. |
| `AccountLocks.ThreadAwareAccountLocks.WriteUnlockAccount` | scheduler/src/impls/prio_graph_scheduler/thread_aware_account_locks.rs:245-271 | Removes one write hold; the entry goes when nothing is left. |
| `AccountLocks.ThreadAwareAccountLocks.ReadLockAccount` | scheduler/src/impls/prio_graph_scheduler/thread_aware_account_locks.rs:275-302 | Adds one read hold; bit t is set iff count t is positive. |
| `AccountLocks.ThreadAwareAccountLocks.ReadUnlockAccount` | scheduler/src/impls/prio_graph_scheduler/thread_aware_account_locks.rs:306-335 | Removes one read hold; the entry goes when nothing is left. |
| `AccountLocks.WriteLockRepresents` | scheduler/src/impls/prio_graph_scheduler/thread_aware_account_locks.rs:213-241 | The updated table represents the holds with one write hold more, for every table and every multiset of holds. |
| `AccountLocks.WriteUnlockRepresents` | scheduler/src/impls/prio_graph_scheduler/thread_aware_account_locks.rs:245-271 | The updated table represents the holds with one write hold less. |
| `AccountLocks.ReadLockRepresents` | scheduler/src/impls/prio_graph_scheduler/thread_aware_account_locks.rs:275-302 | The updated table represents the holds with one read hold more. |
| `AccountLocks.ReadUnlockRepresents` | scheduler/src/impls/prio_graph_scheduler/thread_aware_account_locks.rs:306-335 | The updated table represents the holds with one read hold less. |
| `AccountLocks.EntryIffHeld` | scheduler/src/impls/prio_graph_scheduler/thread_aware_account_locks.rs:50-52 | An account has an entry if and only if some lock on it is held. |
| `ThreadSets.RawThreadSet.Any` | scheduler/src/impls/prio_graph_scheduler/thread_aware_account_locks.rs:379-385 | Exactly the threads below n, for n = 64 too. |
| `ThreadSets.RawThreadSet.Only` | scheduler/src/impls/prio_graph_scheduler/thread_aware_account_locks.rs:388-390 | Exactly one thread. |
| `ThreadSets.RawThreadSet.And` | scheduler/src/impls/prio_graph_scheduler/thread_aware_account_locks.rs:338-344 | The bitwise and of two words is the intersection of the sets. |
| `ThreadSets.RawThreadSet.Minus` | scheduler/src/impls/prio_graph_scheduler/thread_aware_account_locks.rs:352-358 | And with the complement is the difference. |
| `ThreadSets.RawThreadSet.Insert` | scheduler/src/impls/prio_graph_scheduler/thread_aware_account_locks.rs:413-415 | Or with a flag adds the thread. |
| `ThreadSets.RawThreadSet.Remove` | scheduler/src/impls/prio_graph_scheduler/thread_aware_account_locks.rs:418-420 | And with the complement of a flag removes the thread. |
| `ThreadSets.RawThreadSet.Contains` | scheduler/src/impls/prio_graph_scheduler/thread_aware_account_locks.rs:408-410 | The masked word is not zero if and only if the thread is in the set. |
| `ThreadSets.RawThreadSet.IsEmpty` | scheduler/src/impls/prio_graph_scheduler/thread_aware_account_locks.rs:403-405 | The word is zero if and only if the set is empty. |
| `ThreadSets.RawThreadSet.OnlyOneContained` | scheduler/src/impls/prio_graph_scheduler/thread_aware_account_locks.rs:398-400 | Returns t if and only if the set is {t}, by popcount and trailing zeros. |
| `Container.TransactionState.TransitionToPending` | scheduler/src/impls/prio_graph_scheduler/transaction_state.rs:85-106 | Gives out the transaction, and putting it back restores the state. |
| `Container.TransactionStateContainer.Pop` | scheduler/src/impls/prio_graph_scheduler/transaction_state_container.rs:65-67 | Takes the greatest (priority, id): nothing that waits has a higher priority, and what has the same has a smaller id. |
| `Container.TransactionStateContainer.InsertNewTransaction` | scheduler/src/impls/prio_graph_scheduler/transaction_state_container.rs:87-100 | With a fresh id the books stay in order: the map is the disjoint union of the waiting, Unprocessed with matching priority, and those in flight, Pending. A full queue drops its least, map entry and all. |
| `Container.TransactionStateContainer.RetryTransaction` | scheduler/src/impls/prio_graph_scheduler/transaction_state_container.rs:104-115 | A transaction in flight waits again with its priority and cost; the books stay in order. |
| `Container.TransactionStateContainer.PushIdIntoQueue` | scheduler/src/impls/prio_graph_scheduler/transaction_state_container.rs:120-129 | The queue keeps the greatest, the map drops what the queue drops, the answer says whether it did, and what is dropped has no higher priority than anything kept. |
| `Container.TransactionStateContainer.RemoveById` | scheduler/src/impls/prio_graph_scheduler/transaction_state_container.rs:132-136 | Forgets one known transaction. |
| `Container.PushTracks` | scheduler/src/impls/prio_graph_scheduler/transaction_state_container.rs:120-129 | A push with eviction keeps the books for every container. |
| `BoundedQueue.PushedAllIsTop` | scheduler/src/impls/prio_graph_scheduler/transaction_state_container.rs:87-129 | After any insertions of new ids the queue holds exactly the `capacity` greatest of what it held and what was inserted. |
| `BoundedQueue.TopIsHighest` | scheduler/src/impls/prio_graph_scheduler/transaction_state_container.rs:87-129 | What was left out of it has no higher priority than anything in it. |
| `Container.TracksKeys` | scheduler/src/impls/prio_graph_scheduler/transaction_state_container.rs:28-36 | The map holds exactly the waiting and those in flight, and nobody is both. |
| `BoundedQueue.PushOrderIrrelevant` | scheduler/src/impls/prio_graph_scheduler/transaction_state_container.rs:87-129 | The order of the insertions does not matter. |
| `InFlight.InFlightTracker.TrackBatch` | scheduler/src/impls/prio_graph_scheduler/in_flight_tracker.rs:44-63 | A new id is in use; the counters remain the sums over the tracked batches. |
| `InFlight.InFlightTracker.CompleteBatch` | scheduler/src/impls/prio_graph_scheduler/in_flight_tracker.rs:71-84 | The counters remain the sums and never underflow. |
| `InFlight.IdleCounters` | scheduler/src/impls/prio_graph_scheduler/in_flight_tracker.rs:44-84 | With nothing tracked every counter is zero. |
| `InFlight.TotalWithout` | scheduler/src/impls/prio_graph_scheduler/in_flight_tracker.rs:44-84 | The sum over a hash map of batches does not depend on its order. |
| `IdGenerators.IdGenerator.Draw` | scheduler/bin/scheduling_simulation.rs:211-214 | Ids drawn in sequence fall one by one: the k-th id ever drawn is 2^64 - 1 - k. |
| `IdGenerators.IdGenerator.Gen` | scheduler/src/id_generator.rs:14-18 | The first 2^64 ids go down one by one from 2^64 - 1, so that none repeats and the greater one is older. |
| `ReadWriteSets.ReadWriteAccountSet.CheckLocks` | scheduler/src/impls/prio_graph_scheduler/read_write_account_set.rs:17-29 | True if and only if the message conflicts with none of the accesses collected. |
| `ReadWriteSets.ReadWriteAccountSet.TakeLocks` | scheduler/src/impls/prio_graph_scheduler/read_write_account_set.rs:33-45 | The set grows by exactly the accesses of the message; the answer is false also when the message gets in its own way. |
| `PrioGraphs.SomePoppable` | scheduler/src/impls/prio_graph_scheduler/scheduler.rs:162-251 | While a node is left and everything popped is unblocked, some node can be popped, so the loops make progress. |
| `PrioGraphs.PrioGraph.Pop` | scheduler/src/impls/prio_graph_scheduler/scheduler.rs:168 | Returns the greatest id whose earlier conflicting nodes are all unblocked, so none of higher priority can be popped, or `None` when there is none. |
| `PrioGraphs.PrioGraph.PopAndUnblock` | scheduler/src/impls/prio_graph_scheduler/scheduler.rs:263 | Removes one node, or finds that none is left. |
| `Wrapper.PrioGraphSchedulerWrapper.ScheduleBatch` | scheduler/src/impls/prio_graph_scheduler/mod.rs:37-63 | The container keeps exactly the 10240 greatest of the waiting and the new ids, and the map those and the ones in flight. Then a pass is run: nothing is dropped by a filter, placement keeps arrival order, what waits is what was not placed, each for a reason; and if some thread had room, the pass decides about everything that waits. |
| `Wrapper.PriorityIsArrival` | scheduler/src/impls/prio_graph_scheduler/mod.rs:37-63 | Without filters and with equal priorities nothing is dropped, and a placed transaction follows, on the same worker, every earlier waiting one it conflicts with; arrival is the number of ids drawn before. |
| `Wrapper.Feed.Submit` | scheduler/bin/scheduling_simulation.rs:204-225 | A chunk of transactions gets the next ids, which are fresh; the k-th transaction ever submitted has arrival number k, priority 0 and cost 100; the container keeps exactly the 10240 greatest of the waiting and the new ids; they are scheduled, and the pass keeps to the order of arrival. |
| `Wrapper.DrawnAreFresh` | scheduler/bin/scheduling_simulation.rs:211-214 | The next ids of the generator are new to the container, which knows only ids drawn before. |
| `Wrapper.AllDecided` | scheduler/src/impls/prio_graph_scheduler/mod.rs:37-63 | Without filters a thorough pass over at most 10240 transactions decides about every one of them. |
| `Wrapper.InsertBatch` | scheduler/src/impls/prio_graph_scheduler/mod.rs:38-54 | The three lists are zipped; the queue becomes the old one with every new id offered in turn, and the new states are Unprocessed with priority 0 and cost 100. |
| `Wrapper.PrioGraphSchedulerWrapper.ReceiveComplete` | scheduler/src/impls/prio_graph_scheduler/mod.rs:65-69 | All results are received; what stays keeps its priority and cost, nothing new is placed, and the wrapper stays consistent. |
| `Wrapper.PrioGraphSchedulerWrapper.constructor` | scheduler/src/impls/prio_graph_scheduler/mod.rs:27-35 | An idle scheduler with the given limit and an empty container of capacity 10240; with a positive share for each thread there is room. |
| `Forks.WalkEndsExactly` | storage/src/ledger/mod.rs:169-175 | The first loop of `find_ancestors` ends if and only if the stop slot is above 0 or the links from the root do not lead to the genesis bank. |
| `Forks.GenesisLoops` | storage/src/ledger/mod.rs:169-175 | With stop slot 0 and the chain 1 to 0 the loop runs for ever: the genesis bank is its own parent. |
| `Forks.FindAncestors` | storage/src/ledger/mod.rs:161-201 | Returns what following the parent links through the removed banks collects, for any order of the removed list. |
| `Forks.FoundIsExact` | storage/src/ledger/mod.rs:161-201 | For a fork tree pruned by `set_root` that is exactly the removed ancestors of the new root. |
| `Forks.ReorgEndsExactly` | storage/src/ledger/mod.rs:112-129 | The reorganisation ends if and only if that condition holds of the tree before it. |
| `Forks.SurvivesPlainly` | storage/src/ledger/mod.rs:139-158 | A bank survives if and only if it is the root, a descendant of it, or, when a slot is finalized, an ancestor at or above that slot. |
| `Forks.RollupStorage.SetRoot` | storage/src/ledger/mod.rs:139-158 | The surviving banks are the root, its descendants and its ancestors at or above the finalized slot; the others are returned, each once. |
| `Forks.RollupStorage.Reorg` | storage/src/ledger/mod.rs:112-129 | Marks dead exactly the banks that are neither the new root, nor its descendants, nor its ancestors; the survivors are stated by the finalized slot itself, keep their links, and the highest of them is the working bank; the list returned is exactly the removed banks, each once. |
| `TimeWindows.MergedCovers` | scheduler/src/status_slicing.rs:146-166 | For windows sorted by start, the merged windows cover exactly the same points of time. |
| `TimeWindows.MergedGapped` | scheduler/src/status_slicing.rs:146-166 | They are in order with strict gaps. |
| `TimeWindows.GappedUnique` | scheduler/src/status_slicing.rs:146-166 | Windows in order with gaps are determined by the points they cover. |
| `TimeWindows.MergedIdempotent` | scheduler/src/status_slicing.rs:146-166 | Merging again changes nothing. |
| `TimeWindows.MergedCanonical` | scheduler/src/status_slicing.rs:89-91 | The outcome does not depend on how equal starts were sorted. |
| `TimeWindows.MergeTimeWindows` | scheduler/src/status_slicing.rs:146-166 | From windows sorted by start: the windows in order with strict gaps that cover the same points. |
| `LoadSummary.ActiveTimeConserved` | scheduler/src/status_slicing.rs:96-118 | Conservation: the overlaps found window by window add up to the total active time. |
| `LoadSummary.GroupedOverlap` | scheduler/src/status_slicing.rs:100-113 | Summing by thread loses nothing and counts nothing twice, in any order of the map. |
| `LoadSummary.TotalActiveFits` | scheduler/src/status_slicing.rs:96-120 | If no thread is active twice at once, the active time is at most the number of threads times the length of the windows. |
| `LoadSummary.CalculateThreadLoadSummary` | scheduler/src/status_slicing.rs:71-122 | The weighted load is the active time divided by the number of distinct threads that sent an update, and the average that divided by the total duration; they are numbers if and only if every merged window has a duration, the average only if there are updates. |
| `LoadSummary.InstantFails` | scheduler/src/status_slicing.rs:115-120 | A worker active for one instant makes the average not a number. |
| `LoadSummary.PositiveExactly` | scheduler/src/status_slicing.rs:115-120 | Every merged window has a duration if and only if no update is an instant that no longer update touches. |
| `LoadSummary.AverageAtMostOne` | scheduler/src/status_slicing.rs:115-120 | If no thread is active twice at once, the average load is between 0 and 1. |
| `LoadSummary.AverageIsOne` | scheduler/src/status_slicing.rs:115-120 | If every thread is active throughout the windows, once at a time, the average load is exactly 1. |
| `LoadSummary.ThreadsAreSenders` | scheduler/src/status_slicing.rs:94-113 | The threads counted are exactly those that sent an update. |
| `MessageBuilder.SanitizedTransactionBuilder.CreateInstruction` | svm/executor/src/transaction/builder.rs:63-108 | Sorts the metas into the four lists with saturating counts and records the instruction. |
| `MessageBuilder.SanitizedTransactionBuilder.Build` | svm/executor/src/transaction/builder.rs:110-184 | The message is the compiled form of what was gathered, and every position is found; the read-only unsigned accounts stay in the builder. |
| `MessageBuilder.PositionIs` | svm/executor/src/transaction/builder.rs:145-175 | A key listed several times under one type gets its last place of that type. |
| `MessageBuilder.AddAllCounts` | svm/executor/src/transaction/builder.rs:77-105 | The header counts are the sizes of the lists, capped at 255. |
| `MessageBuilder.MetasRoundTrip` | svm/executor/src/transaction/builder.rs:63-184 | Round trip for a message of one instruction within 256 keys: each compiled index decodes, through the header, to the meta it came from, whatever keys repeat and whatever was left over. |
| `MessageBuilder.FeePayerRoundTrip` | svm/executor/src/transaction/builder.rs:142-143 | The fee payer decodes to a writable signer. |
| `MessageBuilder.ProgramRoundTrip` | svm/executor/src/transaction/builder.rs:171-184 | The program id decodes to a read-only account that does not sign. |
| `MessageBuilder.SignaturesAlign` | svm/executor/src/transaction/builder.rs:142-161 | There are as many signatures as the header asks for, and each belongs to the key at its place. |
| `MessageBuilder.WritableExactly` | svm/executor/src/transaction/builder.rs:124-184 | For any number of instructions and any use of the builder before: which keys decode as signers and as writable, exactly. Of the read-only accounts, those left over and one more for every instruction but the first decode as writable. |
| `MessageBuilder.AccountsExactly` | svm/executor/src/transaction/builder.rs:124-184 | An account of an instruction decodes to what was asked for if and only if it is not a read-only one whose place is among those. |
| `MessageBuilder.ProgramsExactly` | svm/executor/src/transaction/builder.rs:124-184 | A program id decodes as read-only if and only if there are enough read-only accounts before it to make up for the programs the header does not count. |
| `MessageBuilder.SecondProgramUncounted` | svm/executor/src/transaction/builder.rs:124-184 | A message of two instructions whose read-only account does not decode as read-only. |
| `MessageBuilder.LeftoverIsWritable` | svm/executor/src/transaction/builder.rs:229-242 | A builder used twice whose second message shows the read-only account of the first as writable. |
| `MessageBuilder.LeftoversAreListed` | svm/executor/src/transaction/builder.rs:229-242 | What `clean_up` leaves behind is listed by the next message, as writable; the message has no extra keys if and only if nothing was left over. |
| `Rollup.ReachableInv` | example/src/runner.rs:61-123 | Over every run of the node, batcher and data-availability loops: while no L1 head was advanced more than 255 times without a new L1 block, everything in the channel, batcher or cache is at or before (current height, sequence number). |
| `Rollup.ComesBackExecuted` | example/src/runner.rs:96-123 | Then whatever comes back is found to be executed. |
| `Rollup.AtMostOnceExactly` | example/src/runner.rs:61-123 | No (height, sequence) is given to the producer twice if and only if no L1 head is advanced more than 255 times without a new L1 block, the sequence number being a byte. |
| `Rollup.TooIdleRepeats` | example/src/runner.rs:68-73 | In every run with more than 255 such advances one is given twice. |
| `Rollup.ByteOverflows` | example/src/runner.rs:68-73 | There is a run with 255 such advances, which repeats nothing, and one with 256, which repeats. |
| `Rollup.HeightsConsecutive` | example/src/l2/engine.rs:47-78 | L2 blocks get the heights 1, 2, 3 and so on, whatever fails. |
| `Rollup.PipelineConserves` | example/src/l2/batcher.rs:34-64 | Over every run: the attributes sent are, in order, those that arrived from data availability, the posted, the next batch, the cache and the channel; and what arrived is what is cached and what was taken. Nothing is lost, repeated or reordered on the way. |
| `Rollup.DepositsAreSent` | example/src/runner.rs:61-80 | A new L1 block that is produced is sent as (height, 0) with its deposits first and the waiting transactions after them, and while no head was advanced more than 255 times that is the only one sent for it. |
| `Rollup.SvmEngine.ProduceBlock` | example/src/l2/engine.rs:47-78 | The attribute with the waiting transactions is passed on only if the block was produced, and the block is numbered one past the latest. |
| `Rollup.SvmEngine.LatestHeight` | example/src/l2/ledger.rs:28-30 | The greatest height in the ledger, 0 if there is none. |
| `Rollup.SimpleRunner.BatcherSends` | example/src/l2/batcher.rs:46-64 | A turn of the sending loop is a step of the run: the batch collected a turn earlier is posted, and the cache becomes the next batch. |
| `Rollup.SimpleRunner.BatcherReceives` | example/src/l2/batcher.rs:34-44 | A turn of the receiving loop is a step of the run. |
| `Rollup.SimpleRunner.DaUpdates` | example/src/derive/da.rs:24-35 | A turn of the updating loop is a step of the run. |
| `Rollup.SimpleRunner.AdvanceUnsafe` | example/src/runner.rs:61-80 | One step of the run. With a new L1 block the head becomes its height, the sequence number 0, and the producer is given exactly its deposits followed by the waiting transactions; with the same head the sequence number goes up by one and only the waiting transactions are given; without a head nothing happens. |
| `Rollup.SimpleRunner.NextSafe` | example/src/runner.rs:98-110 | One step of the run: the attribute is skipped if and only if there is a head and it is above the height of the attribute or the sequence number has reached its own, and is else produced; within the 255 advances it is always skipped. |
| `Rollup.SimpleRunner.AdvanceSafe` | example/src/runner.rs:96-113 | Empties the cache or fails; within the 255 advances it does not fail and produces nothing. |

## Left out

- The share of compute units per thread as a bound on what a thread is given; the code does not keep one.
- Scheduler.PrioGraphScheduler.Schedule: assumes that 2^64 batch ids are not used up, and that the channels stay open; an error in the middle of a pass is not modelled.
- Wrapper.PrioGraphSchedulerWrapper.ScheduleBatch: ids must be fresh, which the source does not check; `Wrapper.Feed.Submit` shows that those of the generator are.
- Wrapper.PrioGraphSchedulerWrapper.ReceiveComplete: the totals are dropped, as in the source.
- Forks.RollupStorage.Reorg: `set_dead_slot` and `set_roots` always succeed, and `BankForks::set_root` is the stand-in described by its row.
- LoadSummary.CalculateThreadLoadSummary: updates must not end before they start, and f64 rounding is not modelled.
- MessageBuilder.MetasRoundTrip: one instruction per message; `MessageBuilder.AccountsExactly` says what holds of more.
- MessageBuilder.SanitizedTransactionBuilder.Build: the sanitizing after line 184, address tables and the block hash are not modelled.
- Rollup.SimpleRunner.AdvanceSafe: one step at a time against the other loops, and one `extra` list and one outcome for all blocks of a call.
- Rollup.SimpleRunner.AdvanceUnsafe: L1 heights rise, as the watcher delivers them.
- The libraries `prio_graph`, `min_max_heap` and `crossbeam_channel` are stand-ins: a node can be popped when its earlier conflicting nodes are unblocked, a set with exact capacity, and lists.
- Overflow of lock counts, in-flight counters and compute-unit sums, which are unbounded here.
- `NoLockScheduler`, a dummy without locks.
- The shredding of blocks, the blockstore, history, background services and the storage set-up: wrappers over foreign crates and disk.
- The executor, the verifier, the bank wrappers and the virtual machine itself: foreign code.
- The RPC server: plumbing over banks and blockstore.
- Metrics, timing and logging.
