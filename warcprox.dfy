/**
 * The postfetch pipeline of warcprox/__init__.py: the timestamped queue that
 * links stages, the single-item and batch consumption steps, the listener
 * adapter, and the error policy of a stage's run loop.
 *
 * Threads, the stop `Event`, sleeping and process exit are not modelled as
 * such: the clock is an integer parameter, what a processing step raises is
 * an input, and the run loop is driven by a script of step outcomes.
 */
module Warcprox {
  import opened Wrappers
  import opened Records

  /** Enqueue time, in whole seconds of an integer clock. */
  type Timestamp = int

  // ---------------------------------------------------------------------
  // TimestampedQueue
  // ---------------------------------------------------------------------

  /** The items of a queue's entries, with their timestamps dropped. */
  function Untimed<T>(entries: seq<(Timestamp, T)>): (items: seq<T>)
    ensures |items| == |entries|
  {
    if entries == [] then [] else [entries[0].1] + Untimed(entries[1..])
  }

  /** Every item paired with the same enqueue time `now`. */
  function Stamped<T>(now: Timestamp, items: seq<T>): seq<(Timestamp, T)>
  {
    seq(|items|, i requires 0 <= i < |items| => (now, items[i]))
  }

  lemma {:induction false} UntimedAt<T>(entries: seq<(Timestamp, T)>, i: nat)
    requires i < |entries|
    ensures Untimed(entries)[i] == entries[i].1
  {
    if i > 0 {
      UntimedAt(entries[1..], i - 1);
    }
  }

  /** Putting at the tail adds the item, without its timestamp, at the tail of the contents. */
  lemma {:induction false} UntimedAppend<T>(entries: seq<(Timestamp, T)>, e: (Timestamp, T))
    ensures Untimed(entries + [e]) == Untimed(entries) + [e.1]
  {
    if entries == [] {
      assert entries + [e] == [e];
    } else {
      assert (entries + [e])[1..] == entries[1..] + [e];
      UntimedAppend(entries[1..], e);
    }
  }

  /** Taking a prefix of the entries takes the same prefix of the contents. */
  lemma {:induction false} UntimedPrefix<T>(entries: seq<(Timestamp, T)>, n: nat)
    requires n <= |entries|
    ensures Untimed(entries[..n]) == Untimed(entries)[..n]
  {
    forall i | 0 <= i < n
      ensures Untimed(entries[..n])[i] == Untimed(entries)[i]
    {
      UntimedAt(entries[..n], i);
      UntimedAt(entries, i);
    }
  }

  /**
   * A FIFO queue that pairs every item with the time it was enqueued, so
   * that the age of the oldest pending item can be read off its head.
   * Blocking, timeouts and the mutex are not modelled; an empty queue
   * answers a get with `None` (Python's `queue.Empty`).
   */
  class TimestampedQueue<T> {
    /** The pending (timestamp, item) pairs, head first. */
    var entries: seq<(Timestamp, T)>

    constructor ()
      ensures entries == []
    {
      entries := [];
    }

    /** The pending items, head first, as the stages see them. */
    function Contents(): seq<T>
      reads this
    {
      Untimed(entries)
    }

    /** Enqueue `item` stamped with the current time `now`. */
    method Put(now: Timestamp, item: T)
      modifies this
      ensures entries == old(entries) + [(now, item)]
      ensures Contents() == old(Contents()) + [item]
    {
      UntimedAppend(entries, (now, item));
      entries := entries + [(now, item)];
    }

    /** Dequeue the head together with its timestamp. */
    method GetWithTimestamp() returns (entry: Option<(Timestamp, T)>)
      modifies this
      ensures old(entries) == [] ==> entry == None && entries == []
      ensures old(entries) != [] ==> entry == Some(old(entries)[0]) && entries == old(entries)[1..]
    {
      if entries == [] {
        entry := None;
      } else {
        entry := Some(entries[0]);
        entries := entries[1..];
      }
    }

    /** Dequeue the head and return only the item. */
    method Get() returns (item: Option<T>)
      modifies this
      ensures old(entries) == [] ==> item == None && entries == []
      ensures old(entries) != [] ==>
        item == Some(old(Contents())[0]) && entries == old(entries)[1..] &&
        Contents() == old(Contents())[1..]
    {
      var entry := GetWithTimestamp();
      if entry.None? {
        item := None;
      } else {
        UntimedAt(old(entries), 0);
        item := Some(entry.value.1);
      }
    }

    /** The head's timestamp, without removing anything; `None` exactly when empty. */
    method OldestTimestamp() returns (t: Option<Timestamp>)
      ensures t == None <==> entries == []
      ensures entries != [] ==> t == Some(entries[0].0)
    {
      if entries != [] {
        var (timestamp, _) := entries[0];
        t := Some(timestamp);
      } else {
        t := None;
      }
    }

    /** How long the oldest pending item has waited at time `now`; 0 when empty. */
    method SecondsBehind(now: Timestamp) returns (s: int)
      ensures entries == [] ==> s == 0
      ensures entries != [] ==> s == now - entries[0].0
    {
      var timestamp := OldestTimestamp();
      if timestamp.Some? {
        s := now - timestamp.value;
      } else {
        s := 0;
      }
    }
  }

  /** Two puts followed by two gets return the items in the order they were put. */
  method QueueIsFifo<T>(t0: Timestamp, x: T, t1: Timestamp, y: T)
    returns (first: Option<T>, oldestAfter: Option<Timestamp>, second: Option<T>, third: Option<T>)
    ensures first == Some(x) && second == Some(y) && third == None
    ensures oldestAfter == Some(t1)
  {
    var q := new TimestampedQueue<T>();
    q.Put(t0, x);
    q.Put(t1, y);
    first := q.Get();
    oldestAfter := q.OldestTimestamp();
    second := q.Get();
    third := q.Get();
  }

  // ---------------------------------------------------------------------
  // Processing steps
  // ---------------------------------------------------------------------

  /** What one call of a stage's get-process-put step ends with. */
  datatype StepOutcome = Processed | QueueEmpty | Raised(error: Error)

  /** The outcome of a processing call that raises `failure`, if present. */
  function Raising(failure: Option<Error>): (r: Outcome<Error>)
    ensures r.Fail? <==> failure.Some?
    ensures failure.Some? ==> r.error == failure.value
  {
    match failure
    case None => Pass
    case Some(e) => Fail(e)
  }

  /**
   * The notification capability a listener stage forwards to; the model
   * records every notification it receives.
   */
  class Listener {
    var notifications: seq<(RecordedUrl, seq<WarcRecord>)>

    constructor ()
      ensures notifications == []
    {
      notifications := [];
    }

    method Notify(recordedUrl: RecordedUrl, records: seq<WarcRecord>)
      modifies this
      ensures notifications == old(notifications) + [(recordedUrl, records)]
    {
      notifications := notifications + [(recordedUrl, records)];
    }
  }

  /**
   * A single-item stage (BaseStandardPostfetchProcessor). Its per-item
   * step is abstract: the model logs every item it was given in
   * `processed`, and the step raises what the caller passes as `failure`.
   * With a non-null `listener` it is the listener adapter
   * (ListenerPostfetchProcessor), whose step notifies the listener.
   * `outq` is null for a terminal stage.
   */
  class StandardProcessor {
    const inq: TimestampedQueue<RecordedUrl>
    const outq: TimestampedQueue?<RecordedUrl>
    const listener: Listener?
    var processed: seq<RecordedUrl>

    constructor (inq: TimestampedQueue<RecordedUrl>, outq: TimestampedQueue?<RecordedUrl>, listener: Listener?)
      ensures this.inq == inq && this.outq == outq && this.listener == listener
      ensures processed == []
    {
      this.inq := inq;
      this.outq := outq;
      this.listener := listener;
      processed := [];
    }

    /** The per-item step; for the listener adapter, exactly `notify(u, u.warc_records)`. */
    method ProcessUrl(recordedUrl: RecordedUrl, failure: Option<Error>) returns (r: Outcome<Error>)
      modifies this, listener
      ensures processed == old(processed) + [recordedUrl]
      ensures listener != null ==>
        listener.notifications == old(listener.notifications) + [(recordedUrl, recordedUrl.warcRecords)]
      ensures r == Raising(failure)
    {
      processed := processed + [recordedUrl];
      if listener != null {
        listener.Notify(recordedUrl, recordedUrl.warcRecords);
      }
      r := Raising(failure);
    }

    /**
     * Take one item from `inq`, process it, and on success put the same
     * item on `outq` (stamped `now`). When `outq` is `inq` itself the item
     * goes back to the tail.
     */
    method GetProcessPut(now: Timestamp, failure: Option<Error>) returns (r: StepOutcome)
      modifies this, inq, outq, listener
      ensures old(inq.entries) == [] ==>
        r == QueueEmpty && inq.entries == [] && processed == old(processed) &&
        (outq != null ==> outq.entries == old(outq.entries)) &&
        (listener != null ==> listener.notifications == old(listener.notifications))
      ensures old(inq.entries) != [] ==>
        var u := old(inq.Contents())[0];
        var rest := old(inq.entries)[1..];
        processed == old(processed) + [u] &&
        (listener != null ==> listener.notifications == old(listener.notifications) + [(u, u.warcRecords)]) &&
        (outq != inq ==> inq.entries == rest) &&
        (failure.Some? ==>
          r == Raised(failure.value) &&
          (outq != null ==> outq.entries == if outq == inq then rest else old(outq.entries))) &&
        (failure.None? ==>
          r == Processed &&
          (outq != null ==> outq.entries == (if outq == inq then rest else old(outq.entries)) + [(now, u)]))
    {
      var item := inq.Get();
      if item.None? {
        return QueueEmpty;
      }
      var recordedUrl := item.value;
      var outcome := ProcessUrl(recordedUrl, failure);
      if outcome.Fail? {
        return Raised(outcome.error);
      }
      if outq != null {
        outq.Put(now, recordedUrl);
      }
      return Processed;
    }
  }

  /** Put every item on `q`, in order, each stamped `now`. */
  method PutAll<T>(q: TimestampedQueue<T>, now: Timestamp, items: seq<T>)
    modifies q
    ensures q.entries == old(q.entries) + Stamped(now, items)
    ensures q.Contents() == old(q.Contents()) + items
  {
    var i := 0;
    while i < |items|
      invariant 0 <= i <= |items|
      invariant q.entries == old(q.entries) + Stamped(now, items[..i])
      invariant q.Contents() == old(q.Contents()) + items[..i]
    {
      assert items[..i + 1] == items[..i] + [items[i]];
      assert Stamped(now, items[..i + 1]) == Stamped(now, items[..i]) + [(now, items[i])];
      q.Put(now, items[i]);
      i := i + 1;
    }
    assert items[..i] == items;
  }

  /** The cap on the number of items one batch step takes (MAX_BATCH_SIZE). */
  const MAX_BATCH_SIZE: nat := 500

  function Min(a: nat, b: nat): nat
  {
    if a <= b then a else b
  }

  /**
   * A batch stage (BaseBatchPostfetchProcessor). Its batch step is
   * abstract: the model logs every batch it was given in `batches`, and
   * the step raises what the caller passes as `failure`.
   */
  class BatchProcessor {
    const inq: TimestampedQueue<RecordedUrl>
    const outq: TimestampedQueue?<RecordedUrl>
    var batches: seq<seq<RecordedUrl>>

    constructor (inq: TimestampedQueue<RecordedUrl>, outq: TimestampedQueue?<RecordedUrl>)
      ensures this.inq == inq && this.outq == outq
      ensures batches == []
    {
      this.inq := inq;
      this.outq := outq;
      batches := [];
    }

    method ProcessBatch(batch: seq<RecordedUrl>, failure: Option<Error>) returns (r: Outcome<Error>)
      modifies this
      ensures batches == old(batches) + [batch]
      ensures r == Raising(failure)
    {
      batches := batches + [batch];
      r := Raising(failure);
    }

    /**
     * Take one item, then keep taking without blocking until `inq` is empty
     * or the batch holds MAX_BATCH_SIZE items; process the batch; on success
     * put every item of it on `outq`, in order, stamped `now`. With no other
     * producer the batch is the first min(500, |inq|) items of `inq`. On a
     * failure the batch is neither forwarded nor put back.
     */
    method GetProcessPut(now: Timestamp, failure: Option<Error>) returns (r: StepOutcome, batch: seq<RecordedUrl>)
      modifies this, inq, outq
      ensures var n := Min(MAX_BATCH_SIZE, |old(inq.entries)|);
        batch == old(inq.Contents())[..n] &&
        (r == QueueEmpty <==> n == 0) &&
        (r != QueueEmpty ==> 1 <= |batch| <= MAX_BATCH_SIZE)
      ensures old(inq.entries) == [] ==>
        r == QueueEmpty && inq.entries == [] && batches == old(batches) &&
        (outq != null ==> outq.entries == old(outq.entries))
      ensures old(inq.entries) != [] ==>
        var rest := old(inq.entries)[|batch|..];
        batches == old(batches) + [batch] &&
        (outq != inq ==> inq.entries == rest) &&
        (failure.Some? ==>
          r == Raised(failure.value) &&
          (outq != null ==> outq.entries == if outq == inq then rest else old(outq.entries))) &&
        (failure.None? ==>
          r == Processed &&
          (outq != null ==> outq.entries == (if outq == inq then rest else old(outq.entries)) + Stamped(now, batch)) &&
          (outq != null && outq != inq ==> outq.Contents() == old(outq.Contents()) + batch))
    {
      batch := TakeBatch();
      if batch == [] {
        return QueueEmpty, batch;
      }
      var outcome := ProcessBatch(batch, failure);
      if outcome.Fail? {
        return Raised(outcome.error), batch;
      }
      if outq != null {
        PutAll(outq, now, batch);
      }
      return Processed, batch;
    }

    /**
     * Block (here: look once) for one item, then take more without blocking
     * while `inq` has any and the batch is below MAX_BATCH_SIZE.
     */
    method TakeBatch() returns (batch: seq<RecordedUrl>)
      modifies inq
      ensures var n := Min(MAX_BATCH_SIZE, |old(inq.entries)|);
        batch == old(inq.Contents())[..n] && inq.entries == old(inq.entries)[n..]
    {
      ghost var before := inq.entries;
      batch := [];
      var first := inq.Get();
      if first.None? {
        return;
      }
      batch := [first.value];
      UntimedPrefix(before, 1);
      while |batch| < MAX_BATCH_SIZE
        invariant 1 <= |batch| <= MAX_BATCH_SIZE && |batch| <= |before|
        invariant inq.entries == before[|batch|..]
        invariant batch == Untimed(before)[..|batch|]
        decreases MAX_BATCH_SIZE - |batch|
      {
        var next := inq.Get();
        if next.None? {
          break;
        }
        UntimedAt(before, |batch|);
        batch := batch + [next.value];
      }
    }
  }

  // ---------------------------------------------------------------------
  // The run loop's error policy
  // ---------------------------------------------------------------------

  /** errno 28, "No space left on device". */
  const ENOSPC: int := 28

  datatype Severity = Fatal | Transient

  /** Running out of storage is fatal; every other error is transient. */
  function Classify(e: Error): (s: Severity)
    ensures s == Fatal <==> e == OSError(ENOSPC)
  {
    if e.OSError? && e.errno == ENOSPC then Fatal else Transient
  }

  predicate IsFatal(o: StepOutcome)
  {
    o.Raised? && Classify(o.error) == Fatal
  }

  /**
   * Whether a step that ended with `o` ends the run loop, given whether the
   * stop signal is set when the loop next looks at it.
   */
  predicate EndsRun(o: StepOutcome, stopSet: bool)
  {
    match o
    case Processed => false
    case QueueEmpty => stopSet
    case Raised(e) => Classify(e) == Fatal || stopSet
  }

  /**
   * How a run ended: the stop signal was observed, `sys.exit(status)` was
   * called (inside the stage's thread, where it ends that thread), or the
   * script ran out.
   */
  datatype RunEnd = Stopped | Exited(status: int) | OutOfScript

  /** How a run ended, how many steps it took, and how often it called the shutdown hook. */
  datatype RunResult = RunResult(end: RunEnd, steps: nat, shutdowns: nat)

  /**
   * The run loop of a stage (BasePostfetchProcessor._run). `outcomes[i]` is
   * what the (i+1)-th call of the stage's step ends with; the stop signal
   * reads as set once `stopFrom` steps have been made (it is never cleared).
   * A queue that is empty while stop is set ends the loop and calls the
   * shutdown hook; a fatal error calls the hook and exits with status 1; any
   * other error is survived, and the loop re-checks stop before going on.
   * The script running out ends the model, not warcprox's loop.
   */
  method Run(outcomes: seq<StepOutcome>, stopFrom: nat) returns (r: RunResult)
    ensures r.steps <= |outcomes| && r.shutdowns <= 1
    ensures forall i :: 0 <= i < r.steps - 1 ==> !EndsRun(outcomes[i], i + 1 >= stopFrom)
    ensures r.end.OutOfScript? ==>
      r.steps == |outcomes| && 0 < stopFrom &&
      (r.steps == 0 || !EndsRun(outcomes[r.steps - 1], r.steps >= stopFrom))
    ensures r.end.Stopped? ==>
      stopFrom <= r.steps &&
      (r.steps == 0 || (EndsRun(outcomes[r.steps - 1], true) && !IsFatal(outcomes[r.steps - 1])))
    ensures r.end.Exited? ==> r.end.status == 1 && 0 < r.steps && IsFatal(outcomes[r.steps - 1])
    ensures r.shutdowns == if r.end.Exited? || (r.end.Stopped? && 0 < r.steps && outcomes[r.steps - 1].QueueEmpty?) then 1 else 0
    ensures stopFrom == 0 ==> r == RunResult(Stopped, 0, 0)
  {
    var calls: nat := 0;
    var shutdowns: nat := 0;
    while !(stopFrom <= calls)
      invariant calls <= |outcomes| && shutdowns <= 1
      invariant stopFrom == 0 ==> calls == 0
      invariant forall i :: 0 <= i < calls - 1 ==> !EndsRun(outcomes[i], i + 1 >= stopFrom)
      invariant 0 < calls && calls < stopFrom ==> !EndsRun(outcomes[calls - 1], false)
      invariant calls < stopFrom ==> shutdowns == 0
      invariant calls == 0 ==> shutdowns == 0
      invariant 0 < calls && stopFrom <= calls ==>
        EndsRun(outcomes[calls - 1], true) && !IsFatal(outcomes[calls - 1]) &&
        (shutdowns == 1 <==> outcomes[calls - 1].QueueEmpty?)
      decreases |outcomes| - calls
    {
      var raised: Option<Error> := None;
      while true
        invariant calls <= |outcomes| && shutdowns == 0 && raised == None
        invariant forall i :: 0 <= i < calls ==> !EndsRun(outcomes[i], i + 1 >= stopFrom)
        decreases |outcomes| - calls
      {
        if calls == |outcomes| {
          return RunResult(OutOfScript, calls, shutdowns);
        }
        var o := outcomes[calls];
        calls := calls + 1;
        match o
        case Processed =>
        case QueueEmpty =>
          if stopFrom <= calls {
            break;
          }
        case Raised(e) =>
          raised := Some(e);
          break;
      }
      if raised.None? {
        // the stop signal was seen on an empty queue: the shutdown hook
        shutdowns := shutdowns + 1;
      } else if Classify(raised.value) == Fatal {
        // out of storage: the shutdown hook, then exit(1)
        shutdowns := shutdowns + 1;
        return RunResult(Exited(1), calls, shutdowns);
      }
      // otherwise a transient error: logged, a short sleep, then stop is checked again
    }
    return RunResult(Stopped, calls, shutdowns);
  }

  /** A transient error does not end a stage: its next step still runs. */
  method SurvivesTransientError(outcomes: seq<StepOutcome>, stopFrom: nat, i: nat) returns (r: RunResult)
    requires i + 1 < |outcomes| && i + 1 < stopFrom
    requires outcomes[i].Raised? && Classify(outcomes[i].error) == Transient
    requires forall j :: 0 <= j < i ==> !EndsRun(outcomes[j], j + 1 >= stopFrom)
    ensures i + 1 < r.steps
  {
    r := Run(outcomes, stopFrom);
  }

  /** A fatal error calls the shutdown hook once, exits with status 1, and no step follows it. */
  method FatalErrorExits(outcomes: seq<StepOutcome>, stopFrom: nat, i: nat) returns (r: RunResult)
    requires i < |outcomes| && IsFatal(outcomes[i])
    requires forall j :: 0 <= j < i ==> !EndsRun(outcomes[j], j + 1 >= stopFrom)
    requires 0 < stopFrom
    ensures r == RunResult(Exited(1), i + 1, 1)
  {
    r := Run(outcomes, stopFrom);
    if r.steps - 1 < i {
      assert EndsRun(outcomes[r.steps - 1], r.steps >= stopFrom);
    }
  }

  /** A stop signal seen on an empty queue ends the run with exactly one shutdown. */
  method StopOnEmptyQueueShutsDownOnce(outcomes: seq<StepOutcome>, stopFrom: nat, i: nat) returns (r: RunResult)
    requires i < |outcomes| && outcomes[i] == QueueEmpty && 0 < stopFrom <= i + 1
    requires forall j :: 0 <= j < i ==> !EndsRun(outcomes[j], j + 1 >= stopFrom)
    ensures r == RunResult(Stopped, i + 1, 1)
  {
    r := Run(outcomes, stopFrom);
    if r.steps - 1 < i {
      assert EndsRun(outcomes[r.steps - 1], r.steps >= stopFrom);
    }
  }

  /**
   * A transient error raised once the stop signal is set ends the run
   * without the shutdown hook: the stop check that follows it is the outer
   * loop's, not the empty-queue one.
   */
  method StopAfterTransientErrorSkipsShutdown(outcomes: seq<StepOutcome>, stopFrom: nat, i: nat) returns (r: RunResult)
    requires i < |outcomes| && outcomes[i].Raised? && Classify(outcomes[i].error) == Transient
    requires 0 < stopFrom <= i + 1
    requires forall j :: 0 <= j < i ==> !EndsRun(outcomes[j], j + 1 >= stopFrom)
    ensures r == RunResult(Stopped, i + 1, 0)
  {
    r := Run(outcomes, stopFrom);
    if r.steps - 1 < i {
      assert EndsRun(outcomes[r.steps - 1], r.steps >= stopFrom);
    }
  }
}
