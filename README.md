# key-value-storage: durability path and configuration resolvers

This project models the durability path of a small key-value server written
in Go, and the pure resolvers that decide whether that path is built and how.

- **Storage coordinator** (`Storage`). `Set` and `Del` first write to the
  write-ahead log (WAL), wait for its future, and only then apply the change
  to the engine. A storage holding a replication stream rejects mutations.
  `Get` reads straight from the engine. At construction, the records the log
  recovers are replayed into the engine in order, dispatching on command ID.
  - The engine is one `map<string, string>`.
  - The log is an abstract collaborator. Its calls and the engine's calls are
    recorded in a ghost trace of events. The trace states "logged before
    applied" and "a replica never logs".
- **WAL batching** (`Wal`). `push` appends one record to the open batch under
  a lock. A batch that reaches `maxBatchSize` is handed off whole to a queue.
  A single worker writes queued batches, flushes the open batch on a timer,
  and flushes it once more on close.
  - The class keeps the open `batch`, the hand-off queue `queued`, the
    sequence `written` of `WriteBatch` calls, and a ghost history `pushed`.
  - The worker's three `select` arms are separate methods.
  - Pure functions (`AfterPush`, `PushAll`) specify the accumulator and carry
    the counting lemmas.
- **Builders** (`WalBuilder`, `ReplicationBuilder`, `NetworkBuilder`,
  `EngineBuilder`, with `Network` for the TCP server constructor's checks).
  Each is a function from an optional configuration record to a `Result`.
  Zero or empty fields take the defaults, and some values are rejected. The
  calls into code that is not part of this model are function parameters:
  `tools.ParseSize` and `network.NewTCPClient`.

Go's `time.Duration` is a wrapping 64-bit integer (`Durations.int64`). The
idle timeout `syncInterval * 3` is computed with wrap-around (`Durations.Scale`).

## Model

| member | source | states |
|---|---|---|
| Wal.AfterPush | internal/database/storage/wal/wal.go:105-111 | exactly one of two cases holds: the open batch grew by the record and the queue is unchanged, or the batch reached `maxBatchSize` and was appended whole to the queue, leaving the batch empty; the queue changes iff the size was reached; pending records keep push order; with size >= 1 the open batch stays below it |
| Wal.PushAllFromEmpty | internal/database/storage/wal/wal.go:106-110 | after N pushes from empty with size B >= 1 and no flush: exactly N / B batches are queued, each of size B; N % B records are open; their concatenation is the N records in order |
| Wal.PushAllNonPositiveSize | internal/database/storage/wal/wal.go:107 | with a batch size <= 0 no push ever hands a batch off; every record stays in the open batch |
| Wal.WAL.constructor | internal/database/storage/wal/wal.go:33-48 | a new log stores the timeout, size and reader; nothing is pending, queued, written or running |
| Wal.WAL.Recover | internal/database/storage/wal/wal.go:50-52 | returns exactly the reader's records and error |
| Wal.WAL.Start | internal/database/storage/wal/wal.go:54-55 | starts the worker and moves no record |
| Wal.WAL.Push | internal/database/storage/wal/wal.go:101-114 | builds the record from the transaction id, the command and the arguments; the new batch and queue are `AfterPush` of the old ones; the record is appended to the history and to the log's contents; nothing is written; the bounds and the push order are preserved |
| Wal.WAL.Set | internal/database/storage/wal/wal.go:79-81 | pushes one record with `SetCommandID` and arguments `[key, value]`, as `Push` states |
| Wal.WAL.Del | internal/database/storage/wal/wal.go:83-85 | pushes one record with `DelCommandID` and arguments `[key]`, as `Push` states |
| Wal.WAL.FlushBatch | internal/database/storage/wal/wal.go:87-99 | an empty open batch writes nothing; a non-empty one is written exactly once and the open batch becomes empty; the queue is untouched; push order is kept when the queue is empty or the batch was empty |
| Wal.WAL.OnBatch | internal/database/storage/wal/wal.go:65-66 | the oldest queued batch is written unchanged and leaves the queue; the log's contents and push order are unchanged |
| Wal.WAL.OnTimeout | internal/database/storage/wal/wal.go:67-68 | as written: one `FlushBatch`, which writes the open batch even ahead of a queued batch |
| Wal.WAL.OnClose | internal/database/storage/wal/wal.go:62-64 | as written: one final `FlushBatch`, then the worker stops; queued batches stay unwritten |
| Wal.WAL.FlushInOrder | internal/database/storage/wal/wal.go:62-68 | corrected flush: every queued batch is written oldest first, then the non-empty open batch; the written batches concatenate to the old contents; push order is preserved |
| Wal.WAL.OnTimeoutInOrder | internal/database/storage/wal/wal.go:67-68 | corrected timer arm: the written batches gain the queue and then the open batch, in order; push order is preserved |
| Wal.WAL.OnCloseDraining | internal/database/storage/wal/wal.go:62-64 | corrected close arm: once the worker stops, nothing is pending and the written batches concatenate to every pushed record in push order |
| Wal.CloseLeavesQueuedBatchUnwritten | internal/database/storage/wal/wal.go:62-64 | with batch size 1, one Set and then the close arm leave one batch queued and nothing written, although the worker has stopped |
| Wal.TimeoutWritesOutOfOrder | internal/database/storage/wal/wal.go:65-68 | with batch size 2, three Sets and then the timer arm followed by the batch arm write `[[r3], [r1, r2]]`, which is not the push order |
| Wal.WrittenOutOfOrder | internal/database/storage/wal/wal.go:87-99 | the batches `[[r3], [r1, r2]]` concatenate to `[r3, r1, r2]`, which differs from `[r1, r2, r3]` |
| Storage.Apply | internal/database/storage/storage.go:112-117 | a Set record maps its key to its value; a Del record removes its key; an unknown command changes nothing; every other key is unchanged |
| Storage.Effects | internal/database/storage/storage.go:110-119 | a replay makes only engine calls and never calls the log |
| Storage.ReplayConcat | internal/database/storage/storage.go:110-119 | replaying `a + b` is replaying `a` and then `b`, and its engine calls are those of `a` followed by those of `b` |
| Storage.ReplayBatchesFlatten | internal/database/storage/storage.go:104-108 | replaying a sequence of batches one by one is replaying their concatenation |
| Storage.ReplayIsLastWrite | internal/database/storage/storage.go:110-119 | after a replay, each key holds what the last record touching it says (its value for a Set, absent for a Del); keys no record touches keep their old value |
| Storage.Storage.constructor | internal/database/storage/storage.go:47-62 | without a log, the engine is the given one and nothing is called; with one, the calls are recover, the replay's engine calls and start, in that order; the engine is the replay of every recovered record, even when recovery reported an error |
| Storage.Storage.Set | internal/database/storage/storage.go:67-81 | a replica returns "mutable transaction on slave" and touches neither log nor engine; a log error is returned after one log call and leaves the engine unchanged; on log success, or without a log, the engine maps key to value and nothing else changes; a primary with a log makes each engine Set directly after its log Set |
| Storage.Storage.Del | internal/database/storage/storage.go:83-97 | the same four cases as Set, with the key removed from the engine |
| Storage.Storage.Get | internal/database/storage/storage.go:99-102 | never an error; the engine's value for the key, or "" when the key is absent |
| Storage.Storage.ApplyLogs | internal/database/storage/storage.go:110-119 | the engine becomes the left-to-right replay of the records, and the engine calls made are exactly the replay's |
| Storage.Storage.ApplyBatches | internal/database/storage/storage.go:105-107 | the engine becomes the replay of the batches in arrival order, which is also the replay of their concatenation; the engine calls appended are exactly those of replaying the concatenation |
| Storage.Storage.SynchronizeReplica | internal/database/storage/storage.go:104-108 | the same engine and engine calls as applying the concatenated batches once; the earlier trace is kept; no log call is made and the replica invariant holds |
| Storage.NewStorage | internal/database/storage/storage.go:33-65 | a nil engine gives "engine is invalid" and a nil logger gives "logger is invalid", each building nothing; otherwise it succeeds with a fresh storage built as the constructor states; the stream is dropped, so the result is never a replica |
| Storage.NewStorageWithStream | internal/database/storage/storage.go:26-52 | corrected construction: the same errors and start-up, and a storage given a stream is a replica |
| Storage.StreamedStorageAcceptsSet | internal/database/storage/storage.go:47-52 | as written, a storage given a stream accepts a Set and changes its engine |
| Storage.StreamedStorageRejectsSet | internal/database/storage/storage.go:68-70 | once the stream is kept, the same Set returns "mutable transaction on slave" and the engine stays empty |
| Durations.Wrap64 | internal/initialization/replication_builder.go:50 | the result is in the 64-bit range and congruent to the input modulo 2^64; an in-range value is unchanged |
| Durations.Scale | internal/initialization/replication_builder.go:50 | a duration times a factor with 64-bit wrap-around; the exact product whenever it fits |
| Network.NewTCPServer | internal/network/tcp_server.go:25-47 | fails with "logger is invalid" when the logger is missing; otherwise fails with "invalid number of max connections" when the limit is <= 0; otherwise succeeds with the arguments unchanged; success iff the logger is present and the limit is positive |
| WalBuilder.CreateWAL | internal/initialization/wal_builder.go:18-52 | a nil configuration gives no log and no error; it fails iff the segment size is set and does not parse, with "max segment size is incorrect"; a built log has reader and writer on the same non-empty directory, a non-zero batch size and a non-zero timeout |
| WalBuilder.CreateWALDefaults | internal/initialization/wal_builder.go:13-16 | unset fields give batch size 100, timeout 10 ms, segment size 10 << 20 and directory "./data/kv-storage/wal" |
| WalBuilder.CreateWALResolution | internal/initialization/wal_builder.go:25-48 | each set field replaces its own default and each unset field keeps it; the log gets the resolved timeout and batch size; the writer gets the resolved segment size |
| WalBuilder.CreateWALIndependent | internal/initialization/wal_builder.go:25-44 | each resolved parameter depends only on its own configuration field |
| WalBuilder.CreateWALBatchSizePositive | internal/initialization/wal_builder.go:25-27 | the resolved batch size is positive iff the configured length is not negative, which is what `Wal.PushAllFromEmpty` needs |
| ReplicationBuilder.SyncInterval | internal/initialization/replication_builder.go:14-41 | the resolved interval is the configured one when that is set and the 1 s default when there is no configuration or the field is zero; it is never zero |
| ReplicationBuilder.MasterAddress | internal/initialization/replication_builder.go:13-37 | the resolved address is the configured one when that is set and "localhost:3232" when there is no configuration or the field is empty; it is never empty |
| ReplicationBuilder.CreateReplica | internal/initialization/replication_builder.go:16-67 | a set type other than master or slave gives "replica type is incorrect"; a master failure is only "logger is invalid"; a slave failure is only the dial error; a master has the resolved address, 5 connections, 16 << 20 message size, three sync intervals of idle time, and the configured log directory when one is set, else the WAL default; a slave dials the resolved address with the same caps and keeps the resolved interval |
| ReplicationBuilder.MasterUsesWalDirectory | internal/initialization/replication_builder.go:24-46 | the master's log directory is the one the WAL builder resolves, or the WAL default when there is no WAL configuration |
| ReplicationBuilder.MasterWithLoggerSucceeds | internal/initialization/replication_builder.go:52-58 | an unset or "master" type with a logger always passes the server's checks, so NewMaster is always called; without a logger it always fails |
| ReplicationBuilder.SlaveFailsOnlyOnDial | internal/initialization/replication_builder.go:59-66 | a slave fails iff dialling the resolved client arguments fails, and then with that error |
| ReplicationBuilder.CreateReplicaDefaults | internal/initialization/replication_builder.go:12-50 | no configuration gives a master on "localhost:3232" with a 3 s idle timeout over "./data/kv-storage/wal"; empty fields give the same; a one-minute interval gives a 3 min idle timeout |
| ReplicationBuilder.CreateReplicaExpectedOutcomes | internal/initialization/replication_builder_test.go:11-47 | no configuration and a full master configuration succeed; an address only gives a master on that address with the 3 s default idle timeout; type "non-master" fails with "replica type is incorrect" |
| NetworkBuilder.CreateNetwork | internal/initialization/network_builder.go:17-47 | it fails with "incorrect max message size" iff a set size does not parse; with "logger is invalid" iff the logger is missing and the size is fine; with "invalid number of max connections" iff the logger is present and the configured limit is negative; a built server has a non-empty address, a positive limit and a non-zero idle timeout |
| NetworkBuilder.CreateNetworkDefaults | internal/initialization/network_builder.go:12-21 | no configuration, or one with every field unset, gives "localhost:8080", 100 connections, 5 min idle time and 2048-byte messages |
| NetworkBuilder.CreateNetworkResolution | internal/initialization/network_builder.go:23-46 | each set field replaces only its own default and each unset field keeps it |
| EngineBuilder.CreateEngine | internal/initialization/engine_builder.go:21-34 | it fails iff the type is set and is not "in_memory", with "engine type is incorrect"; otherwise the engine has 10 partitions, whatever the configuration |
| EngineBuilder.CreateEngineAccepted | internal/initialization/engine_builder.go:19-33 | no configuration, an empty type and "in_memory" all give the same 10-partition engine |

## Left out

- Goroutines, the mutex and the `select` race are concurrency. The worker's arms are sequential methods, and their interleavings are the caller's choice.
- The capacity-1 `batches` channel is an unbounded `queued` sequence. A `push` that blocks on a full channel while holding the lock is not modelled, and neither is the deadlock this allows against a flush waiting for the same lock.
- The `time.After` timer is not a clock: `OnTimeout` is simply callable at any time.
- The close/closeDone handshake of `Shutdown` is left out; only the close arm itself is modelled.
- `fsWriter.WriteBatch` is the `written` sequence, and `fsReader.ReadLogs` is a constant `ReadResult`. Segment files and rollover are not part of this model.
- Storage.Storage.Set: the WAL future's resolution is the parameter `walOutcome`; future resolution and the per-record completion promise are not modelled.
- Storage.Storage.Del: the same parameter `walOutcome` stands for the future, for the same reason.
- `ctx.Value("tx").(int64)` can panic on a missing or mistyped value. The transaction id is a parameter instead.
- The numeric values of the command IDs are not part of this model. The model fixes distinct values and relies only on their distinctness.
- The engine is one map. In-memory partitioning and hashing are not part of this model, and an absent key is taken to read as "".
- Storage.Storage.SynchronizeReplica: a channel that is never closed (or is nil) makes the Go loop run forever. The model folds over a finite sequence of batches, requires a replica and, like ApplyBatches, requires well-formed records. storage.go never calls the unexported synchronizeReplica.
- Storage.Storage.ApplyLogs: records must carry enough arguments (two for a Set, one for a Del). The Go code indexes them unchecked and would panic.
- Storage.Storage.constructor: requires the same well-formed recovered records, for the same reason.
- Storage.NewStorage: requires the same well-formed recovered records, for the same reason.
- Storage.NewStorageWithStream: requires the same well-formed recovered records, for the same reason.
- Storage.Storage.ApplyBatches: requires well-formed records in every batch, for the same reason.
- Wal.WAL.Push: the class invariant keeps bounds only. The exact transition is stated per method, and push order is preserved where it holds (`InOrder`), but no multiset conservation is stated separately.
- `tools.ParseSize` and `network.NewTCPClient` are function parameters. `replication.NewMaster`, `replication.NewSlave`, `in_memory.NewEngine`, `wal.NewFSReader` and `wal.NewFSWriter` are not part of this model: the builders return the arguments of those calls, and their own errors are not represented.
- A nil logger is a boolean `loggerPresent`. Logging itself has no effect in the model.
- storage_mock.go (generated mocks), the TCP server's accept loop and socket I/O, and both `main` programs are left out.

## Findings

| source | as written | input that shows it | evidently intended | confidence | as-written member | corrected member |
|---|---|---|---|---|---|---|
| internal/database/storage/wal/wal.go:62-64 | the close arm flushes only the open batch and returns | batch size 1; one Set hands its batch to the channel; the worker takes the close arm before the batch arm | every record pushed before close is written before the worker stops | medium, not executed | Wal.WAL.OnClose, Wal.CloseLeavesQueuedBatchUnwritten | Wal.WAL.OnCloseDraining |
| internal/database/storage/wal/wal.go:65-68 | the timer arm writes the open batch while a full batch may still sit in the channel | batch size 2; Sets r1, r2, r3; the timer arm runs before the batch arm; the writes are [r3] then [r1, r2] | batches reach the writer in push order | low, not executed | Wal.WAL.OnTimeout, Wal.TimeoutWritesOutOfOrder | Wal.WAL.OnTimeoutInOrder |
| internal/database/storage/storage.go:51 | the replication stream is never stored, so the replica checks in Set and Del never fire | NewStorage with an engine, no log, a non-nil stream and a logger; then Set("k", "v") succeeds and changes the engine | a storage given a stream rejects mutations | low, not executed | Storage.NewStorage, Storage.StreamedStorageAcceptsSet | Storage.NewStorageWithStream, Storage.StreamedStorageRejectsSet |
