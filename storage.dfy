/** The storage coordinator: log first, then apply; reject mutations on a
    replica; serve reads from the engine; replay recovered records at start-up.
    The engine is one map from keys to values. The log is an abstract
    collaborator: its calls are recorded in a ghost trace, and what its future
    resolves to is a parameter. */
module Storage {
  import opened Wrappers
  import opened Compute
  import opened Wal

  /** Calls the coordinator makes on its two collaborators, in order. */
  datatype Event =
    | WalRecover
    | WalStart
    | WalSet(key: string, value: string)
    | WalDel(key: string)
    | EngineSet(key: string, value: string)
    | EngineDel(key: string)

  const EngineInvalid: string := "engine is invalid"
  const LoggerInvalid: string := "logger is invalid"
  const MutationOnSlave: string := "mutable transaction on slave"

  /** A Set record carries a key and a value, a Del record a key; the replay
      indexes them without checking, so anything shorter would panic. */
  predicate WellFormed(log: LogData)
  {
    && (log.commandID == SetCommandID ==> |log.arguments| >= 2)
    && (log.commandID == DelCommandID ==> |log.arguments| >= 1)
  }

  predicate AllWellFormed(logs: seq<LogData>)
  {
    forall i :: 0 <= i < |logs| ==> WellFormed(logs[i])
  }

  /** What the engine's Get reports: the value, or nothing when the key is absent. */
  function Lookup(m: map<string, string>, key: string): (v: Option<string>)
  {
    if key in m then Some(m[key]) else None
  }

  /** One record applied to the engine (storage.go:112-117); unknown commands are skipped. */
  function Apply(m: map<string, string>, log: LogData): (r: map<string, string>)
    requires WellFormed(log)
    ensures log.commandID == SetCommandID ==> Lookup(r, log.arguments[0]) == Some(log.arguments[1])
    ensures log.commandID == DelCommandID ==> Lookup(r, log.arguments[0]) == None
    ensures log.commandID != SetCommandID && log.commandID != DelCommandID ==> r == m
    ensures forall k ::
      (log.commandID !in {SetCommandID, DelCommandID} || k != log.arguments[0]) ==> Lookup(r, k) == Lookup(m, k)
  {
    if log.commandID == SetCommandID then m[log.arguments[0] := log.arguments[1]]
    else if log.commandID == DelCommandID then m - {log.arguments[0]}
    else m
  }

  /** Records applied left to right. */
  function Replay(m: map<string, string>, logs: seq<LogData>): (r: map<string, string>)
    requires AllWellFormed(logs)
  {
    if logs == [] then m else Apply(Replay(m, logs[..|logs| - 1]), logs[|logs| - 1])
  }

  /** The engine calls a replay makes, one per Set or Del record. */
  function Effects(logs: seq<LogData>): (r: seq<Event>)
    requires AllWellFormed(logs)
    ensures forall i :: 0 <= i < |r| ==> r[i].EngineSet? || r[i].EngineDel?
  {
    if logs == [] then []
    else
      var log := logs[|logs| - 1];
      Effects(logs[..|logs| - 1]) +
        (if log.commandID == SetCommandID then [EngineSet(log.arguments[0], log.arguments[1])]
         else if log.commandID == DelCommandID then [EngineDel(log.arguments[0])]
         else [])
  }

  lemma WellFormedConcat(a: seq<LogData>, b: seq<LogData>)
    requires AllWellFormed(a) && AllWellFormed(b)
    ensures AllWellFormed(a + b)
  {
    forall i | 0 <= i < |a + b| ensures WellFormed((a + b)[i]) {
      if i >= |a| { assert (a + b)[i] == b[i - |a|]; }
    }
  }

  lemma {:induction false} ReplayConcat(m: map<string, string>, a: seq<LogData>, b: seq<LogData>)
    requires AllWellFormed(a) && AllWellFormed(b)
    ensures AllWellFormed(a + b)
    ensures Replay(m, a + b) == Replay(Replay(m, a), b)
    ensures Effects(a + b) == Effects(a) + Effects(b)
    decreases |b|
  {
    WellFormedConcat(a, b);
    if b == [] {
      assert a + b == a;
    } else {
      var front, last := b[..|b| - 1], b[|b| - 1];
      assert (a + b)[..|a + b| - 1] == a + front;
      assert (a + b)[|a + b| - 1] == last;
      assert AllWellFormed(front);
      ReplayConcat(m, a, front);
    }
  }

  /** Batches replayed one after the other. */
  function ReplayBatches(m: map<string, string>, batches: seq<seq<LogData>>): (r: map<string, string>)
    requires forall i :: 0 <= i < |batches| ==> AllWellFormed(batches[i])
  {
    if batches == [] then m else Replay(ReplayBatches(m, batches[..|batches| - 1]), batches[|batches| - 1])
  }

  /** Replaying batch by batch is replaying their concatenation. */
  lemma {:induction false} ReplayBatchesFlatten(m: map<string, string>, batches: seq<seq<LogData>>)
    requires forall i :: 0 <= i < |batches| ==> AllWellFormed(batches[i])
    ensures AllWellFormed(Flatten(batches))
    ensures ReplayBatches(m, batches) == Replay(m, Flatten(batches))
    decreases |batches|
  {
    if batches != [] {
      var front := batches[..|batches| - 1];
      ReplayBatchesFlatten(m, front);
      ReplayConcat(m, Flatten(front), batches[|batches| - 1]);
    }
  }

  /** One more batch: its records and its engine calls come after those of
      the batches before it. */
  lemma ReplayBatchesStep(m: map<string, string>, batches: seq<seq<LogData>>, i: nat)
    requires i < |batches| && forall j :: 0 <= j < |batches| ==> AllWellFormed(batches[j])
    ensures AllWellFormed(Flatten(batches[..i])) && AllWellFormed(Flatten(batches[..i + 1]))
    ensures Flatten(batches[..i + 1]) == Flatten(batches[..i]) + batches[i]
    ensures Effects(Flatten(batches[..i + 1])) == Effects(Flatten(batches[..i])) + Effects(batches[i])
    ensures ReplayBatches(m, batches[..i + 1]) == Replay(ReplayBatches(m, batches[..i]), batches[i])
  {
    var done := batches[..i];
    assert batches[..i + 1] == done + [batches[i]];
    assert batches[..i + 1][..i] == done;
    FlattenSnoc(done, batches[i]);
    ReplayBatchesFlatten(m, done);
    ReplayConcat(m, Flatten(done), batches[i]);
  }

  /** Reference for a replay, one key at a time: the last record that touches the
      key decides it (Some(value) for a Set, None for a Del); no record, no change. */
  function LastWrite(logs: seq<LogData>, key: string): (w: Option<Option<string>>)
    requires AllWellFormed(logs)
  {
    if logs == [] then None
    else
      var log := logs[|logs| - 1];
      if log.commandID == SetCommandID && log.arguments[0] == key then Some(Some(log.arguments[1]))
      else if log.commandID == DelCommandID && log.arguments[0] == key then Some(None)
      else LastWrite(logs[..|logs| - 1], key)
  }

  /** Replaying a log leaves every key as its last write says, and keys no
      record touches as they were. */
  lemma {:induction false} ReplayIsLastWrite(m: map<string, string>, logs: seq<LogData>, key: string)
    requires AllWellFormed(logs)
    ensures Lookup(Replay(m, logs), key) == match LastWrite(logs, key)
      case None => Lookup(m, key)
      case Some(v) => v
    decreases |logs|
  {
    if logs != [] {
      ReplayIsLastWrite(m, logs[..|logs| - 1], key);
    }
  }

  /** No engine call in `events` comes before its matching log call. */
  ghost predicate LoggedBeforeApplied(events: seq<Event>, from: nat)
  {
    forall i {:trigger events[i]} :: from <= i < |events| ==>
      && (events[i].EngineSet? ==> i > from && events[i - 1] == WalSet(events[i].key, events[i].value))
      && (events[i].EngineDel? ==> i > from && events[i - 1] == WalDel(events[i].key))
  }

  lemma LoggedBeforeAppliedExtend(events: seq<Event>, from: nat, more: seq<Event>)
    requires from <= |events|
    requires LoggedBeforeApplied(events, from) && LoggedBeforeApplied(more, 0)
    ensures LoggedBeforeApplied(events + more, from)
  {
    var all := events + more;
    forall i | from <= i < |all|
      ensures all[i].EngineSet? ==> i > from && all[i - 1] == WalSet(all[i].key, all[i].value)
      ensures all[i].EngineDel? ==> i > from && all[i - 1] == WalDel(all[i].key)
    {
      if i >= |events| {
        var j := i - |events|;
        assert all[i] == more[j];
        if j > 0 { assert all[i - 1] == more[j - 1]; }
      } else {
        assert all[i] == events[i];
        if i > from { assert all[i - 1] == events[i - 1]; }
      }
    }
  }

  /** No log call from position `from` on. */
  ghost predicate NoLocalLog(events: seq<Event>, from: nat)
  {
    forall i :: from <= i < |events| ==> !events[i].WalSet? && !events[i].WalDel?
  }

  /** A replay appended to a trace adds no log call. */
  lemma EffectsLogNothing(events: seq<Event>, from: nat, logs: seq<LogData>)
    requires from <= |events| && NoLocalLog(events, from) && AllWellFormed(logs)
    ensures NoLocalLog(events + Effects(logs), from)
  {
    var all, more := events + Effects(logs), Effects(logs);
    forall i | from <= i < |all| ensures !all[i].WalSet? && !all[i].WalDel? {
      if i >= |events| { assert all[i] == more[i - |events|]; } else { assert all[i] == events[i]; }
    }
  }

  lemma NoLocalLogExtend(events: seq<Event>, from: nat, more: seq<Event>)
    requires from <= |events|
    requires NoLocalLog(events, from) && NoLocalLog(more, 0)
    ensures NoLocalLog(events + more, from)
  {
    forall i | from <= i < |events + more|
      ensures !(events + more)[i].WalSet? && !(events + more)[i].WalDel?
    {
      if i >= |events| { assert (events + more)[i] == more[i - |events|]; }
    }
  }

  /** The coordinator (storage.go:26-31). `isReplica` stands for a non-nil
      replication stream, `hasWal` for a non-nil log. */
  class Storage {
    var engine: map<string, string>
    const hasWal: bool
    const isReplica: bool
    ghost var trace: seq<Event>
    ghost const bootLength: nat

    /** After start-up, without a log nothing is logged; with one, every engine
        mutation of a primary directly follows its log call; a replica makes no
        log call at all. */
    ghost predicate Valid()
      reads this
    {
      && bootLength <= |trace|
      && (!hasWal ==> NoLocalLog(trace, 0))
      && (hasWal && !isReplica ==> LoggedBeforeApplied(trace, bootLength))
      && (isReplica ==> NoLocalLog(trace, bootLength))
    }

    /** The construction of storage.go:47-62, once engine and logger are known
        present: recover, replay into the engine in order, start the log. The
        recovery error is only logged. `isReplica` says whether a replication
        stream is kept. */
    constructor (initial: map<string, string>, wal: Option<ReadResult>, isReplica: bool)
      requires wal.Some? ==> AllWellFormed(wal.value.logs)
      ensures Valid() && this.isReplica == isReplica && hasWal == wal.Some?
      ensures wal.None? ==> engine == initial && trace == []
      ensures wal.Some? ==> engine == Replay(initial, wal.value.logs)
      ensures wal.Some? ==> trace == [WalRecover] + Effects(wal.value.logs) + [WalStart]
    {
      engine := initial;
      hasWal := wal.Some?;
      this.isReplica := isReplica;
      trace := [];
      bootLength := if wal.Some? then |Effects(wal.value.logs)| + 2 else 0;
      new;
      if wal.Some? {
        var logs := wal.value.logs;
        trace := trace + [WalRecover];
        ApplyLogs(logs);
        trace := trace + [WalStart];
      }
    }

    /** Set (storage.go:67-81). `walOutcome` is what the log's future resolves to:
        None when the record is durable, Some(error) otherwise. */
    method Set(key: string, value: string, walOutcome: Option<string>) returns (err: Option<string>)
      requires Valid()
      modifies this
      ensures Valid()
      ensures isReplica ==> err == Some(MutationOnSlave) && engine == old(engine) && trace == old(trace)
      ensures !isReplica && hasWal && walOutcome.Some? ==>
        err == walOutcome && engine == old(engine) && trace == old(trace) + [WalSet(key, value)]
      ensures !isReplica && hasWal && walOutcome.None? ==>
        err == None && engine == old(engine)[key := value]
        && trace == old(trace) + [WalSet(key, value), EngineSet(key, value)]
      ensures !isReplica && !hasWal ==>
        err == None && engine == old(engine)[key := value] && trace == old(trace) + [EngineSet(key, value)]
    {
      if isReplica {
        return Some(MutationOnSlave);
      }
      if hasWal {
        if walOutcome.Some? {
          LoggedBeforeAppliedExtend(trace, bootLength, [WalSet(key, value)]);
          trace := trace + [WalSet(key, value)];
          return walOutcome;
        }
        LoggedBeforeAppliedExtend(trace, bootLength, [WalSet(key, value), EngineSet(key, value)]);
        trace := trace + [WalSet(key, value), EngineSet(key, value)];
      } else {
        NoLocalLogExtend(trace, 0, [EngineSet(key, value)]);
        trace := trace + [EngineSet(key, value)];
      }
      engine := engine[key := value];
      err := None;
    }

    /** Del (storage.go:83-97). */
    method Del(key: string, walOutcome: Option<string>) returns (err: Option<string>)
      requires Valid()
      modifies this
      ensures Valid()
      ensures isReplica ==> err == Some(MutationOnSlave) && engine == old(engine) && trace == old(trace)
      ensures !isReplica && hasWal && walOutcome.Some? ==>
        err == walOutcome && engine == old(engine) && trace == old(trace) + [WalDel(key)]
      ensures !isReplica && hasWal && walOutcome.None? ==>
        err == None && engine == old(engine) - {key} && trace == old(trace) + [WalDel(key), EngineDel(key)]
      ensures !isReplica && !hasWal ==>
        err == None && engine == old(engine) - {key} && trace == old(trace) + [EngineDel(key)]
    {
      if isReplica {
        return Some(MutationOnSlave);
      }
      if hasWal {
        if walOutcome.Some? {
          LoggedBeforeAppliedExtend(trace, bootLength, [WalDel(key)]);
          trace := trace + [WalDel(key)];
          return walOutcome;
        }
        LoggedBeforeAppliedExtend(trace, bootLength, [WalDel(key), EngineDel(key)]);
        trace := trace + [WalDel(key), EngineDel(key)];
      } else {
        NoLocalLogExtend(trace, 0, [EngineDel(key)]);
        trace := trace + [EngineDel(key)];
      }
      engine := engine - {key};
      err := None;
    }

    /** Get (storage.go:99-102): the engine's value, "" when absent (the found
        flag is dropped); never an error. */
    method Get(key: string) returns (value: string, err: Option<string>)
      ensures err == None
      ensures Lookup(engine, key) == Some(value) || (Lookup(engine, key) == None && value == "")
    {
      value := if key in engine then engine[key] else "";
      err := None;
    }

    /** applyLogs (storage.go:110-119): every record, left to right. */
    method ApplyLogs(logs: seq<LogData>)
      requires AllWellFormed(logs)
      modifies this
      ensures engine == Replay(old(engine), logs)
      ensures trace == old(trace) + Effects(logs)
    {
      var i := 0;
      while i < |logs|
        invariant 0 <= i <= |logs|
        invariant AllWellFormed(logs[..i])
        invariant engine == Replay(old(engine), logs[..i])
        invariant trace == old(trace) + Effects(logs[..i])
      {
        var log := logs[i];
        assert logs[..i + 1][..i] == logs[..i] && logs[..i + 1][i] == log;
        if log.commandID == SetCommandID {
          engine := engine[log.arguments[0] := log.arguments[1]];
          trace := trace + [EngineSet(log.arguments[0], log.arguments[1])];
        } else if log.commandID == DelCommandID {
          engine := engine - {log.arguments[0]};
          trace := trace + [EngineDel(log.arguments[0])];
        }
        i := i + 1;
      }
      assert logs[..i] == logs;
    }

    /** The loop of synchronizeReplica (storage.go:105-107): each batch from the
        stream is applied in arrival order. */
    method ApplyBatches(batches: seq<seq<LogData>>)
      requires forall i :: 0 <= i < |batches| ==> AllWellFormed(batches[i])
      modifies this
      ensures engine == ReplayBatches(old(engine), batches)
      ensures AllWellFormed(Flatten(batches)) && engine == Replay(old(engine), Flatten(batches))
      ensures trace == old(trace) + Effects(Flatten(batches))
    {
      var i := 0;
      while i < |batches|
        invariant 0 <= i <= |batches|
        invariant engine == ReplayBatches(old(engine), batches[..i])
        invariant AllWellFormed(Flatten(batches[..i]))
        invariant trace == old(trace) + Effects(Flatten(batches[..i]))
      {
        ReplayBatchesStep(old(engine), batches, i);
        ApplyLogs(batches[i]);
        i := i + 1;
      }
      assert batches[..i] == batches;
      ReplayBatchesFlatten(old(engine), batches);
    }

    /** synchronizeReplica (storage.go:104-108): each batch from the stream is
        replayed in arrival order, bypassing the log. Only a replica has a stream. */
    method SynchronizeReplica(batches: seq<seq<LogData>>)
      requires Valid() && isReplica
      requires forall i :: 0 <= i < |batches| ==> AllWellFormed(batches[i])
      modifies this
      ensures Valid()
      ensures engine == ReplayBatches(old(engine), batches)
      ensures AllWellFormed(Flatten(batches)) && engine == Replay(old(engine), Flatten(batches))
      ensures trace == old(trace) + Effects(Flatten(batches))
      ensures NoLocalLog(trace, |old(trace)|)
    {
      ghost var before := trace;
      ApplyBatches(batches);
      EffectsLogNothing(before, |before|, Flatten(batches));
      EffectsLogNothing(before, bootLength, Flatten(batches));
      if !hasWal {
        EffectsLogNothing(before, 0, Flatten(batches));
      }
    }
  }

  /** NewStorage (storage.go:33-65) as written: a nil engine or logger is an
      error and builds nothing; otherwise construction never fails, whatever
      recovery reported. The replication stream is accepted and dropped
      (storage.go:51), so the result never behaves as a replica. */
  method NewStorage(engine: Option<map<string, string>>, wal: Option<ReadResult>,
                    replicationStream: bool, loggerPresent: bool)
    returns (r: Result<Storage, string>)
    requires engine.Some? && loggerPresent && wal.Some? ==> AllWellFormed(wal.value.logs)
    ensures engine.None? ==> r == Failure(EngineInvalid)
    ensures engine.Some? && !loggerPresent ==> r == Failure(LoggerInvalid)
    ensures engine.Some? && loggerPresent ==> r.Success? && fresh(r.value) && r.value.Valid()
    ensures r.Success? ==> !r.value.isReplica && r.value.hasWal == wal.Some?
    ensures r.Success? && wal.None? ==> r.value.engine == engine.value && r.value.trace == []
    ensures r.Success? && wal.Some? ==>
      && r.value.engine == Replay(engine.value, wal.value.logs)
      && r.value.trace == [WalRecover] + Effects(wal.value.logs) + [WalStart]
  {
    if engine.None? {
      return Failure(EngineInvalid);
    }
    if !loggerPresent {
      return Failure(LoggerInvalid);
    }
    var s := new Storage(engine.value, wal, false);
    r := Success(s);
  }

  /** NewStorage keeping the replication stream, as the field and the checks in
      Set, Del and synchronizeReplica evidently intend: a storage built with a
      stream is a replica. */
  method NewStorageWithStream(engine: Option<map<string, string>>, wal: Option<ReadResult>,
                              replicationStream: bool, loggerPresent: bool)
    returns (r: Result<Storage, string>)
    requires engine.Some? && loggerPresent && wal.Some? ==> AllWellFormed(wal.value.logs)
    ensures engine.None? ==> r == Failure(EngineInvalid)
    ensures engine.Some? && !loggerPresent ==> r == Failure(LoggerInvalid)
    ensures engine.Some? && loggerPresent ==> r.Success? && fresh(r.value) && r.value.Valid()
    ensures r.Success? ==> r.value.isReplica == replicationStream && r.value.hasWal == wal.Some?
    ensures r.Success? && wal.None? ==> r.value.engine == engine.value && r.value.trace == []
    ensures r.Success? && wal.Some? ==>
      && r.value.engine == Replay(engine.value, wal.value.logs)
      && r.value.trace == [WalRecover] + Effects(wal.value.logs) + [WalStart]
  {
    if engine.None? {
      return Failure(EngineInvalid);
    }
    if !loggerPresent {
      return Failure(LoggerInvalid);
    }
    var s := new Storage(engine.value, wal, replicationStream);
    r := Success(s);
  }

  /** As written, a storage given a replication stream accepts a mutation: the
      Set succeeds and changes the engine. */
  method StreamedStorageAcceptsSet() returns (s: Storage, err: Option<string>)
    ensures err == None && s.engine == map["k" := "v"] && !s.isReplica
  {
    var r := NewStorage(Some(map[]), None, true, true);
    s := r.value;
    err := s.Set("k", "v", None);
  }

  /** Once the stream is kept, the same Set is refused and the engine is untouched. */
  method StreamedStorageRejectsSet() returns (s: Storage, err: Option<string>)
    ensures err == Some(MutationOnSlave) && s.engine == map[] && s.isReplica
  {
    var r := NewStorageWithStream(Some(map[]), None, true, true);
    s := r.value;
    err := s.Set("k", "v", None);
  }
}
