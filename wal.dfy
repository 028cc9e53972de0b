/** The write-ahead log: records are accumulated into a batch under a lock; a
    full batch is handed to a queue read by one worker, which writes queued
    batches, flushes a partial batch on a timer and once more on close. */
module Wal {
  import opened Wrappers
  import opened Durations
  import opened Compute

  /** One log record: the caller's transaction id, the command and its arguments.
      The completion promise a Go `Log` carries beside this data is not part of
      the model. */
  datatype LogData = LogData(txID: int, commandID: int, arguments: seq<string>)

  /** What the file-system reader returns: the records it could read and,
      independently, an error (Go returns both). */
  datatype ReadResult = ReadResult(logs: seq<LogData>, err: Option<string>)

  /** Concatenation of a sequence of batches, in order. */
  function Flatten<T>(batches: seq<seq<T>>): (r: seq<T>)
    ensures batches == [] ==> r == []
  {
    if batches == [] then [] else Flatten(batches[..|batches| - 1]) + batches[|batches| - 1]
  }

  lemma FlattenSnoc<T>(batches: seq<seq<T>>, b: seq<T>)
    ensures Flatten(batches + [b]) == Flatten(batches) + b
  {
    assert (batches + [b])[..|batches|] == batches;
  }

  lemma {:induction false} FlattenConcat<T>(a: seq<seq<T>>, b: seq<seq<T>>)
    ensures Flatten(a + b) == Flatten(a) + Flatten(b)
    decreases |b|
  {
    if b == [] {
      assert a + b == a;
    } else {
      var front, last := b[..|b| - 1], b[|b| - 1];
      assert b == front + [last];
      assert a + b == (a + front) + [last];
      FlattenSnoc(a + front, last);
      FlattenConcat(a, front);
      FlattenSnoc(front, last);
    }
  }

  /** Taking the first batch off the front of a queue. */
  lemma FlattenFront<T>(batches: seq<seq<T>>)
    requires batches != []
    ensures Flatten(batches) == batches[0] + Flatten(batches[1..])
  {
    assert batches == [batches[0]] + batches[1..];
    FlattenConcat([batches[0]], batches[1..]);
    assert [batches[0]] == [] + [batches[0]];
    FlattenSnoc([], batches[0]);
  }

  /** The records held between the lock-protected batch and the worker:
      the batch being filled and the full batches handed off but not yet written. */
  datatype Pending = Pending(batch: seq<LogData>, queued: seq<seq<LogData>>)

  /** Appending one record under the lock (wal.go:105-111): the record joins the
      batch, and a batch that has just reached `maxBatchSize` is handed off whole. */
  function AfterPush(p: Pending, record: LogData, maxBatchSize: int): (q: Pending)
    ensures Flatten(q.queued) + q.batch == Flatten(p.queued) + p.batch + [record]
    ensures || (q.queued == p.queued && q.batch == p.batch + [record])
            || (|p.batch| + 1 == maxBatchSize && q.queued == p.queued + [p.batch + [record]] && q.batch == [])
    ensures q.queued == p.queued <==> |p.batch| + 1 != maxBatchSize
    ensures maxBatchSize >= 1 && |p.batch| < maxBatchSize ==> |q.batch| < maxBatchSize
  {
    var grown := p.batch + [record];
    if |grown| == maxBatchSize then
      FlattenSnoc(p.queued, grown);
      Pending([], p.queued + [grown])
    else
      Pending(grown, p.queued)
  }

  /** Pushing several records one after the other with no flush in between. */
  function PushAll(p: Pending, records: seq<LogData>, maxBatchSize: int): (q: Pending)
  {
    if records == [] then p
    else AfterPush(PushAll(p, records[..|records| - 1], maxBatchSize), records[|records| - 1], maxBatchSize)
  }

  lemma MulAtLeast(x: int, b: int)
    requires x >= 1 && b >= 1
    ensures x * b >= b
  {
    assert x * b == (x - 1) * b + b;
  }

  /** Floor division and remainder are the unique quotient and remainder. */
  lemma DivModUnique(n: int, b: int, k: int, r: int)
    requires b >= 1 && 0 <= r < b && n == k * b + r
    ensures n / b == k && n % b == r
  {
    var k', r' := n / b, n % b;
    assert (k - k') * b == r' - r;
    if k > k' {
      MulAtLeast(k - k', b);
    } else if k < k' {
      MulAtLeast(k' - k, b);
    }
  }

  /** Every handed-off batch is full and the open batch is below the size. */
  ghost predicate Shaped(p: Pending, maxBatchSize: int)
  {
    && |p.batch| < maxBatchSize
    && forall i :: 0 <= i < |p.queued| ==> |p.queued[i]| == maxBatchSize
  }

  /** Records held by an accumulator whose handed-off batches are all full. */
  function Held(p: Pending, maxBatchSize: int): (n: int)
  {
    |p.queued| * maxBatchSize + |p.batch|
  }

  lemma PushKeepsShape(p: Pending, record: LogData, maxBatchSize: int)
    requires maxBatchSize >= 1 && Shaped(p, maxBatchSize)
    ensures Shaped(AfterPush(p, record, maxBatchSize), maxBatchSize)
    ensures Held(AfterPush(p, record, maxBatchSize), maxBatchSize) == Held(p, maxBatchSize) + 1
  {
    var n := |p.queued|;
    if |p.batch| + 1 == maxBatchSize {
      assert (n + 1) * maxBatchSize == n * maxBatchSize + maxBatchSize;
    }
  }

  /** N pushes into an empty accumulator with batch size B: every handed-off
      batch holds exactly B records, fewer than B stay pending, and every record
      is kept in push order. */
  lemma {:induction false} PushAllFromEmptyShape(records: seq<LogData>, maxBatchSize: int)
    requires maxBatchSize >= 1
    ensures var q := PushAll(Pending([], []), records, maxBatchSize);
      && Shaped(q, maxBatchSize)
      && Held(q, maxBatchSize) == |records|
      && Flatten(q.queued) + q.batch == records
    decreases |records|
  {
    if records != [] {
      var front, last := records[..|records| - 1], records[|records| - 1];
      var p := PushAll(Pending([], []), front, maxBatchSize);
      assert PushAll(Pending([], []), records, maxBatchSize) == AfterPush(p, last, maxBatchSize);
      PushAllFromEmptyShape(front, maxBatchSize);
      PushKeepsShape(p, last, maxBatchSize);
      assert records == front + [last];
    }
  }

  /** Hence exactly N / B batches are handed off and N % B records are pending. */
  lemma PushAllFromEmpty(records: seq<LogData>, maxBatchSize: int)
    requires maxBatchSize >= 1
    ensures var q := PushAll(Pending([], []), records, maxBatchSize);
      && |q.queued| == |records| / maxBatchSize
      && |q.batch| == |records| % maxBatchSize
      && (forall i :: 0 <= i < |q.queued| ==> |q.queued[i]| == maxBatchSize)
      && Flatten(q.queued) + q.batch == records
  {
    PushAllFromEmptyShape(records, maxBatchSize);
    var q := PushAll(Pending([], []), records, maxBatchSize);
    assert Shaped(q, maxBatchSize);
    DivModUnique(|records|, maxBatchSize, |q.queued|, |q.batch|);
  }

  /** With a batch size of zero or below the batch never reaches its size:
      nothing is handed off, everything waits for a timed flush. */
  lemma {:induction false} PushAllNonPositiveSize(p: Pending, records: seq<LogData>, maxBatchSize: int)
    requires maxBatchSize <= 0
    ensures PushAll(p, records, maxBatchSize) == Pending(p.batch + records, p.queued)
    decreases |records|
  {
    if records != [] {
      var front := records[..|records| - 1];
      PushAllNonPositiveSize(p, front, maxBatchSize);
      assert records == front + [records[|records| - 1]];
    }
  }

  /** The bounds the log keeps: a queued batch is full, no written batch is
      empty, and with a positive size the open batch stays below it and no
      written batch exceeds it. */
  ghost predicate Bounded(batch: seq<LogData>, queued: seq<seq<LogData>>, written: seq<seq<LogData>>, maxBatchSize: int)
  {
    && (forall i :: 0 <= i < |queued| ==> |queued[i]| == maxBatchSize)
    && (queued != [] ==> maxBatchSize >= 1)
    && (forall i :: 0 <= i < |written| ==> written[i] != [])
    && (maxBatchSize >= 1 ==> |batch| < maxBatchSize)
    && (maxBatchSize >= 1 ==> forall i :: 0 <= i < |written| ==> |written[i]| <= maxBatchSize)
  }

  /** A push keeps the bounds, and the pending records gain exactly the new one. */
  lemma PushBounded(p: Pending, record: LogData, written: seq<seq<LogData>>, maxBatchSize: int)
    requires Bounded(p.batch, p.queued, written, maxBatchSize)
    ensures var q := AfterPush(p, record, maxBatchSize);
      && Bounded(q.batch, q.queued, written, maxBatchSize)
      && Flatten(written) + Flatten(q.queued) + q.batch == Flatten(written) + Flatten(p.queued) + p.batch + [record]
  {
    var q := AfterPush(p, record, maxBatchSize);
    if |p.batch| + 1 == maxBatchSize {
      forall i | 0 <= i < |q.queued| ensures |q.queued[i]| == maxBatchSize {
        if i < |p.queued| { assert q.queued[i] == p.queued[i]; }
      }
    }
    assert Flatten(q.queued) + q.batch == Flatten(p.queued) + p.batch + [record];
  }

  /** Writing the non-empty open batch keeps the bounds; the written records
      gain that batch. */
  lemma FlushBounded(batch: seq<LogData>, queued: seq<seq<LogData>>, written: seq<seq<LogData>>, maxBatchSize: int)
    requires Bounded(batch, queued, written, maxBatchSize) && batch != []
    ensures Bounded([], queued, written + [batch], maxBatchSize)
    ensures Flatten(written + [batch]) == Flatten(written) + batch
  {
    FlattenSnoc(written, batch);
    forall i | 0 <= i < |written + [batch]|
      ensures (written + [batch])[i] != []
      ensures maxBatchSize >= 1 ==> |(written + [batch])[i]| <= maxBatchSize
    {
      if i < |written| { assert (written + [batch])[i] == written[i]; }
    }
  }

  /** Moving the oldest queued batch to the written ones keeps every record's place. */
  lemma TakeFrontOrder<T>(queued: seq<seq<T>>, written: seq<seq<T>>)
    requires queued != []
    ensures Flatten(written + [queued[0]]) + Flatten(queued[1..]) == Flatten(written) + Flatten(queued)
  {
    FlattenFront(queued);
    FlattenSnoc(written, queued[0]);
  }

  /** Writing the oldest queued batch keeps the bounds and every record's place. */
  lemma TakeFrontBounded(batch: seq<LogData>, queued: seq<seq<LogData>>, written: seq<seq<LogData>>, maxBatchSize: int)
    requires Bounded(batch, queued, written, maxBatchSize) && queued != []
    ensures Bounded(batch, queued[1..], written + [queued[0]], maxBatchSize)
    ensures Flatten(written + [queued[0]]) + Flatten(queued[1..]) == Flatten(written) + Flatten(queued)
  {
    TakeFrontOrder(queued, written);
    var front, rest, done := queued[0], queued[1..], written + [queued[0]];
    assert |front| == maxBatchSize && maxBatchSize >= 1;
    forall i | 0 <= i < |done|
      ensures done[i] != [] && |done[i]| <= maxBatchSize
    {
      if i < |written| { assert done[i] == written[i]; } else { assert done[i] == front; }
    }
    forall i | 0 <= i < |rest| ensures |rest[i]| == maxBatchSize {
      assert rest[i] == queued[i + 1];
    }
  }

  /** The log (wal.go:19-31). The file-system writer is modelled by `written`, the
      sequence of its `WriteBatch` calls; the reader by the constant `stored`,
      what its `ReadLogs` returns. The capacity-1 channel is the `queued` sequence. */
  class WAL {
    const flushTimeout: Duration
    const maxBatchSize: int
    const stored: ReadResult

    var batch: seq<LogData>
    var queued: seq<seq<LogData>>
    var written: seq<seq<LogData>>
    var running: bool
    ghost var pushed: seq<LogData>

    /** Every record the log holds, in the order it will reach the writer if the
        queue is drained before the open batch: written, then queued, then open. */
    ghost function Contents(): seq<LogData>
      reads this
    {
      Flatten(written) + Flatten(queued) + batch
    }

    /** The bounds of `Bounded` hold of the current fields. */
    ghost predicate Valid()
      reads this
    {
      Bounded(batch, queued, written, maxBatchSize)
    }

    /** Written batches, then queued batches, then the open batch are exactly the
        pushed records in push order. */
    ghost predicate InOrder()
      reads this
    {
      Contents() == pushed
    }

    /** NewWAL (wal.go:33-48). */
    constructor (reader: ReadResult, flushTimeout: Duration, maxBatchSize: int)
      ensures Valid() && InOrder()
      ensures this.stored == reader && this.flushTimeout == flushTimeout && this.maxBatchSize == maxBatchSize
      ensures batch == [] && queued == [] && written == [] && pushed == [] && !running
    {
      this.stored := reader;
      this.flushTimeout := flushTimeout;
      this.maxBatchSize := maxBatchSize;
      batch, queued, written, pushed := [], [], [], [];
      running := false;
    }

    /** Recover (wal.go:50-52): exactly what the reader returns, error included. */
    method Recover() returns (r: ReadResult)
      ensures r == stored
    {
      r := stored;
    }

    /** Start (wal.go:54-72): launches the worker; no record moves. */
    method Start()
      modifies this
      ensures running
      ensures batch == old(batch) && queued == old(queued) && written == old(written) && pushed == old(pushed)
    {
      running := true;
    }

    /** push (wal.go:101-114); the transaction id is a parameter. */
    method Push(txID: int, commandID: int, args: seq<string>) returns (record: LogData)
      requires Valid()
      modifies this
      ensures Valid() && (old(InOrder()) ==> InOrder())
      ensures record == LogData(txID, commandID, args)
      ensures pushed == old(pushed) + [record] && Contents() == old(Contents()) + [record]
      ensures Pending(batch, queued) == AfterPush(Pending(old(batch), old(queued)), record, maxBatchSize)
      ensures written == old(written) && running == old(running)
    {
      record := LogData(txID, commandID, args);
      ghost var p := Pending(batch, queued);
      PushBounded(p, record, written, maxBatchSize);
      batch := batch + [record];
      if |batch| == maxBatchSize {
        queued := queued + [batch];
        batch := [];
      }
      assert Pending(batch, queued) == AfterPush(p, record, maxBatchSize);
      pushed := pushed + [record];
    }

    /** Set (wal.go:79-81). */
    method Set(txID: int, key: string, value: string) returns (record: LogData)
      requires Valid()
      modifies this
      ensures Valid() && (old(InOrder()) ==> InOrder())
      ensures record == LogData(txID, SetCommandID, [key, value])
      ensures pushed == old(pushed) + [record] && Contents() == old(Contents()) + [record]
      ensures Pending(batch, queued) == AfterPush(Pending(old(batch), old(queued)), record, maxBatchSize)
      ensures written == old(written) && running == old(running)
    {
      record := Push(txID, SetCommandID, [key, value]);
    }

    /** Del (wal.go:83-85). */
    method Del(txID: int, key: string) returns (record: LogData)
      requires Valid()
      modifies this
      ensures Valid() && (old(InOrder()) ==> InOrder())
      ensures record == LogData(txID, DelCommandID, [key])
      ensures pushed == old(pushed) + [record] && Contents() == old(Contents()) + [record]
      ensures Pending(batch, queued) == AfterPush(Pending(old(batch), old(queued)), record, maxBatchSize)
      ensures written == old(written) && running == old(running)
    {
      record := Push(txID, DelCommandID, [key]);
    }

    /** flushBatch (wal.go:87-99): a non-empty open batch is detached and written
        once; an empty one writes nothing. It writes the open batch ahead of any
        batch still queued, so push order survives only when the queue is empty. */
    method FlushBatch()
      requires Valid()
      modifies this
      ensures Valid()
      ensures old(InOrder()) && (old(queued) == [] || old(batch) == []) ==> InOrder()
      ensures old(batch) == [] ==> written == old(written)
      ensures old(batch) != [] ==> written == old(written) + [old(batch)]
      ensures batch == [] && queued == old(queued) && pushed == old(pushed) && running == old(running)
    {
      if batch != [] {
        FlushBounded(batch, queued, written, maxBatchSize);
        written := written + [batch];
        batch := [];
      }
    }

    /** The worker's batch arm (wal.go:65-66): the oldest queued batch is written unchanged. */
    method OnBatch()
      requires Valid() && running && queued != []
      modifies this
      ensures Valid() && (old(InOrder()) ==> InOrder())
      ensures written == old(written) + [old(queued)[0]] && queued == old(queued)[1..]
      ensures batch == old(batch) && pushed == old(pushed) && running
      ensures Contents() == old(Contents())
    {
      TakeFrontBounded(batch, queued, written, maxBatchSize);
      written := written + [queued[0]];
      queued := queued[1..];
    }

    /** The worker's timer arm as written (wal.go:67-68). */
    method OnTimeout()
      requires Valid() && running
      modifies this
      ensures Valid()
      ensures old(InOrder()) && (old(queued) == [] || old(batch) == []) ==> InOrder()
      ensures old(batch) == [] ==> written == old(written)
      ensures old(batch) != [] ==> written == old(written) + [old(batch)]
      ensures batch == [] && queued == old(queued) && pushed == old(pushed) && running
    {
      FlushBatch();
    }

    /** The worker's close arm as written (wal.go:62-64): one final flush of the
        open batch, then the worker stops. Batches still queued stay unwritten. */
    method OnClose()
      requires Valid() && running
      modifies this
      ensures Valid()
      ensures old(InOrder()) && (old(queued) == [] || old(batch) == []) ==> InOrder()
      ensures old(batch) == [] ==> written == old(written)
      ensures old(batch) != [] ==> written == old(written) + [old(batch)]
      ensures batch == [] && queued == old(queued) && pushed == old(pushed) && !running
    {
      FlushBatch();
      running := false;
    }

    /** The flush corrected: write every queued batch first, oldest first, then
        the open batch. Afterwards nothing is pending, and the written batches
        still give the push order. */
    method FlushInOrder()
      requires Valid() && running
      modifies this
      ensures Valid() && (old(InOrder()) ==> InOrder())
      ensures written == old(written) + old(queued) + (if old(batch) == [] then [] else [old(batch)])
      ensures Flatten(written) == old(Contents())
      ensures batch == [] && queued == [] && pushed == old(pushed) && running
    {
      ghost var w0, q0 := written, queued;
      while queued != []
        invariant Valid() && running
        invariant pushed == old(pushed) && batch == old(batch)
        invariant Contents() == old(Contents())
        invariant w0 + q0 == written + queued
        decreases |queued|
      {
        assert queued == [queued[0]] + queued[1..];
        OnBatch();
      }
      assert written == old(written) + old(queued);
      FlushBatch();
    }

    /** The timer arm corrected: a timed flush keeps push order. */
    method OnTimeoutInOrder()
      requires Valid() && running
      modifies this
      ensures Valid() && (old(InOrder()) ==> InOrder())
      ensures written == old(written) + old(queued) + (if old(batch) == [] then [] else [old(batch)])
      ensures batch == [] && queued == [] && pushed == old(pushed) && running
    {
      FlushInOrder();
    }

    /** The close arm corrected: after the final flush every pushed record has
        been written, in push order, and the worker stops. */
    method OnCloseDraining()
      requires Valid() && InOrder() && running
      modifies this
      ensures Valid() && InOrder()
      ensures written == old(written) + old(queued) + (if old(batch) == [] then [] else [old(batch)])
      ensures Flatten(written) == pushed
      ensures batch == [] && queued == [] && pushed == old(pushed) && !running
    {
      FlushInOrder();
      assert Valid() && InOrder() && Flatten(written) == pushed;
      running := false;
    }
  }

  /** The close arm as written loses a full batch that is still in the channel:
      with batch size 1, one Set hands its record off, and if the worker takes the
      close arm before the batch arm, the record is never written although the
      worker has stopped. */
  method CloseLeavesQueuedBatchUnwritten() returns (w: WAL)
    ensures !w.running && w.written == [] && |w.queued| == 1
    ensures |w.pushed| == 1 && Flatten(w.written) != w.pushed
  {
    w := new WAL(ReadResult([], None), 10 * Millisecond, 1);
    w.Start();
    var record := w.Set(1, "k", "v");
    w.OnClose();
  }

  /** The timer arm as written can write records out of push order: with batch
      size 2, two Sets fill a batch that waits in the channel, a third starts a
      new batch, and if the timer arm runs before the batch arm the third record
      is written ahead of the first two. */
  method TimeoutWritesOutOfOrder() returns (w: WAL, r1: LogData, r2: LogData, r3: LogData)
    ensures w.pushed == [r1, r2, r3] && r1 != r3
    ensures w.written == [[r3], [r1, r2]]
    ensures Flatten(w.written) != w.pushed
  {
    w := new WAL(ReadResult([], None), 10 * Millisecond, 2);
    w.Start();
    r1, r2, r3 := FullBatchThenOne(w);
    w.OnTimeout();
    assert w.written == [[r3]];
    w.OnBatch();
    assert w.written == [[r3], [r1, r2]];
    WrittenOutOfOrder(r1, r2, r3);
  }

  /** Three Sets into an empty log of batch size 2: one full batch waits in the
      channel and the third record is open. */
  method FullBatchThenOne(w: WAL) returns (r1: LogData, r2: LogData, r3: LogData)
    requires w.Valid() && w.running && w.maxBatchSize == 2
    requires w.batch == [] && w.queued == [] && w.written == [] && w.pushed == []
    modifies w
    ensures w.Valid() && w.running
    ensures w.batch == [r3] && w.queued == [[r1, r2]] && w.written == []
    ensures w.pushed == [r1, r2, r3] && r1 != r3
  {
    r1 := w.Set(1, "a", "1");
    assert w.batch == [r1] && w.queued == [];
    r2 := w.Set(2, "b", "2");
    assert [r1] + [r2] == [r1, r2];
    assert w.batch == [] && w.queued == [[r1, r2]];
    r3 := w.Set(3, "a", "3");
  }

  lemma WrittenOutOfOrder(r1: LogData, r2: LogData, r3: LogData)
    requires r1 != r3
    ensures Flatten([[r3], [r1, r2]]) == [r3, r1, r2] != [r1, r2, r3]
  {
    FlattenSnoc([[r3]], [r1, r2]);
    FlattenSnoc([], [r3]);
    assert [[r3], [r1, r2]] == [[r3]] + [[r1, r2]] && [[r3]] == [] + [[r3]];
  }
}
