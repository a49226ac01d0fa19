# Batching queue and busy-worker watcher of the fast_vk worker pool

This project models the two sequential state machines inside the asynchronous
worker pool of fast_vk, a client that executes VK API methods in batches.

- **`ExecuteManager`** (`execute_manager.dfy`) is the batching queue. Callers
  push `(method, sender)` pairs onto an ordered buffer. A flush (`push_execute`)
  drains at most 25 of the oldest pairs. It splits them into two parallel
  sequences and sends them as one `NewExecute` message to the task channel. A
  push flushes once the buffer holds 25 or more pairs. The background task
  flushes once per `FreeWorker` event and stops when the event stream ends.
  Methods and senders are the type parameters `M` and `S`. A send is modelled
  by its outcome, `Accepted` or `Closed`. A trace of pushes and received events
  (`Run`) records every drained batch together with its send outcome.
- **`WorkerWatcher`** (`worker_watcher.dfy`) is the busy-worker counter. A
  background task folds `GotWork`/`DoneWork` events into a count that starts at
  0. A `DoneWork` at 0 is an unsigned underflow: it panics and kills the task
  (`Faulted`). A receive error ends the loop (`Ended`). Dropping the watcher
  aborts a running task, does nothing for a task that ended normally, and
  re-raises the panic of a task that died by one.
- `wrappers.dfy` holds the `Option` type that both modules share.

The code holds the queue's mutex across the send: the background loop at
src/pool/execute_manager.rs:41 and `push` at src/pool/execute_manager.rs:81-85
both do this. Because the lock covers both the drain and the send, no other
flush can send between them. So the order of messages on the task channel is
the order in which batches are drained. That is why the drained batches of the
trace, in order, are the batches the executor receives in `NoLossWhenAccepted`.

`running_workers` calls `drop(&self)` when the task has finished. That call
drops a reference and has no effect, so a past panic is not raised early. The
model follows the code: `running_workers` is a plain read of the counter.

## Model

| member | source | states |
|---|---|---|
| `ExecuteManager.PushExecute` | src/pool/execute_manager.rs:58-78 | An empty buffer gives `EmptyQueue`, drains nothing and leaves the buffer unchanged. Otherwise the flush drains 1 to 25 pairs: exactly 25, or the whole buffer if it is shorter. The buffer equals the drained pairs followed by the new buffer, so the oldest pairs go first. The status is `Ok` exactly when the send is accepted and `Disconnected` exactly when the channel is closed. |
| `ExecuteManager.Split` | src/pool/execute_manager.rs:66-72 | The methods and senders sequences have the length of the drained pairs. Position i of each comes from the i-th drained pair. |
| `ExecuteManager.SplitRoundTrip` | src/pool/execute_manager.rs:66-72 | The message is well formed, and pairing its two sequences position by position gives back the drained pairs. |
| `ExecuteManager.PairsRoundTrip` | src/pool/execute_manager.rs:66-72 | A message with equal-length sequences is the split of its own pairs, so splitting loses nothing. |
| `ExecuteManager.DrainIndependentOfSend` | src/pool/execute_manager.rs:63-75 | Accepted and closed sends leave the same buffer and drain the same batch. A non-empty buffer shrinks even when the send fails. |
| `ExecuteManager.Push` | src/pool/execute_manager.rs:80-89 | The old buffer plus the new pair at its tail equals the drained pairs followed by the new buffer. Below 25 pairs nothing is drained and the result is `Ok`. At 25 or more, exactly 25 are drained. A buffer of 24 becomes empty. A buffer under 25 stays under 25. A push never reports `EmptyQueue`, and it reports `Disconnected` exactly when it flushed into a closed channel. |
| `ExecuteManager.OnReceive` | src/pool/execute_manager.rs:36-48 | The end of the event stream stops the loop. A `FreeWorker` flushes, with nothing lost: the buffer equals the drained pairs plus what remains. An empty buffer stays empty with nothing drained. A buffer of fewer than 25 pairs is drained completely. |
| `ExecuteManager.StepConservesEntries` | src/pool/execute_manager.rs:36-89 | Each push or received event keeps every earlier batch as it was. It moves pairs from the front of the buffer into new batches. Only a push adds a pair, at the tail. |
| `ExecuteManager.RunConservesEntries` | src/pool/execute_manager.rs:36-89 | For any trace and any send outcomes, the drained batches concatenated in order, followed by the buffer, equal the pushed pairs in push order. No pair is lost, duplicated or reordered. |
| `ExecuteManager.RunBounded` | src/pool/execute_manager.rs:63-85 | Every drained batch is well formed and holds 1 to 25 pairs, and the buffer holds fewer than 25 pairs after every step. |
| `ExecuteManager.DeliveredAllWhenAccepted` | src/pool/execute_manager.rs:74-75 | When every send is accepted, every drained batch reaches the executor. |
| `ExecuteManager.NoLossWhenAccepted` | src/pool/execute_manager.rs:36-89 | When every send is accepted, the batches the executor receives followed by the buffer are exactly the pushed pairs in order. |
| `ExecuteManager.PushesFlushFullBatches` | src/pool/execute_manager.rs:80-89 | Pushes alone produce one batch of exactly 25 for every 25 pushes and leave the remainder (count mod 25) in the buffer. For example, 30 pushes give one batch of 25 and leave 5 pending. |
| `WorkerWatcher.Step` | src/pool/worker_watcher.rs:21-31 | A task that has stopped never changes. A running task faults exactly on `DoneWork` at count 0. It ends exactly on a receive error. Otherwise it moves its count by +1 for `GotWork` and -1 for `DoneWork`. |
| `WorkerWatcher.StoppedIsFinal` | src/pool/worker_watcher.rs:19-33 | Once the loop has broken or panicked, no later event changes the task. |
| `WorkerWatcher.ReceiveErrorEnds` | src/pool/worker_watcher.rs:30 | A receive error ends the loop with the count it had, with no fault, whatever follows in the stream. |
| `WorkerWatcher.RunTallies` | src/pool/worker_watcher.rs:16-31 | Starting from 0, the task survives a stream of events exactly when no prefix has more `DoneWork` than `GotWork`. It then holds #GotWork - #DoneWork. Otherwise it has faulted. |
| `WorkerWatcher.ReadAfterEvents` | src/pool/worker_watcher.rs:41-48 | `running_workers` reads #GotWork - #DoneWork when no prefix underflows. After an underflow it reads 0, the value stored when the subtraction panicked. It never reads a negative count. |
| `WorkerWatcher.Drop` | src/pool/worker_watcher.rs:52-66 | The task is aborted exactly when it is still running. The panic is re-raised exactly when the task panicked. Nothing happens exactly when the task completed or was cancelled. |
| `WorkerWatcher.TeardownAfterEvents` | src/pool/worker_watcher.rs:52-66 | After a stream of events, dropping the watcher re-raises the panic exactly when some prefix underflows. Otherwise it aborts the task while the stream is open, and does nothing once a receive error has ended the loop. |
| `WorkerWatcher.TestScenarios` | src/pool/worker_watcher.rs:74-135 | Two `GotWork` read 2. Adding one `DoneWork` reads 1, and a second reads 0. A third `DoneWork` faults the task, and dropping the watcher re-raises the panic. |

## Left out

- Task spawning, `.await` scheduling, the `Mutex` and the `RwLock` are concurrency plumbing. Each background task is modelled as the sequential fold it applies, and the lock scopes are not modelled.
- Channel internals are not modelled. A receive is "next event or end of stream" (`None`). For the watcher this includes broadcast `Lagged` errors, which also break the loop. A send is modelled only by its outcome (`Accepted` or `Closed`).
- `ExecuteManager.Step`: receives after the event stream has ended are ignored. A closed stream delivers no further events, so this case does not arise in the source.
- The payload types `Method`, `Sender` and `Message` are opaque, as is the `vk_method` crate. Methods and senders are type parameters, and `Message` has only the `NewExecute` variant the queue builds.
- The error conversion into `anyhow::Error` is not modelled. A failed send is reported as `Disconnected`.
- The constructors `ExecuteManager::new` and `WorkerWatcher::new` are modelled only through their initial states, `Start()` and `Start`. Their task handles are represented by the task state.
- WorkerWatcher.Step: the `usize` bound of the counter is not modelled. The count is an unbounded `nat`, so a `GotWork` at `usize::MAX` is not modelled: it panics in debug builds and wraps to 0 in release builds (src/pool/worker_watcher.rs:24). A process never has that many busy workers.
- The release-mode wrap-around of the `usize` subtraction is not modelled. The model follows debug and test builds, where the subtraction panics.
- The `Cancelled` join state is handled by `Drop` as the source handles it, but no watcher state maps to it: only the drop itself aborts the task.
- The sleeps in the tests are scheduling delays and are not modelled.
