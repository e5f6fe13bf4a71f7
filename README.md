# warcprox postfetch pipeline and statistics, in Dafny

This project models two parts of warcprox:

- **The postfetch pipeline** in `warcprox/__init__.py`. It covers:
  - the timestamped queue that links the stages, so the age of the oldest pending item can be read;
  - the single-item and batch "get, process, put" steps, with the batch cap of 500;
  - the listener adapter, which forwards each recorded URL and its WARC records to a `notify` capability;
  - the run loop of a stage: "no space left on device" (errno 28) is fatal, every other error is transient, and the stop signal is honoured on an empty queue.
- **Bucketed statistics** in `warcprox/stats.py`. It covers:
  - the counters record of a bucket;
  - the choice of buckets for a transaction: `__all__`, then the custom Warcprox-Meta buckets or `__unspecified__`;
  - the tally, which counts a transaction into its buckets as new or revisit;
  - the hierarchical `value` lookup;
  - the two backends. The dbm file backend is a class over a map. The RethinkDB backend is a class over a table map, a schema catalog, and the log of schema changes it sent.

Files:

- `wrappers.dfy`: `Option` and `Outcome`.
- `records.dfy`: the external data the core consumes, which are recorded URLs, WARC records, Warcprox-Meta, upsert reports and the error values.
- `warcprox.dfy`: module `Warcprox`.
- `stats.dfy`: module `Stats`.

What the model takes as inputs:

- **Time** is an integer parameter `now`.
- **What a processing step raises** is an input `failure`.
- **The stop signal** is a step count `stopFrom`. From that step on, the signal reads as set, and it is never cleared.
- **The RethinkDB server's report on each upsert** is an input `respond(i)`.

The tally is specified by functions of the store (`TallyAll`, `Tallied`, `TalliedAll`). Both backends' `Tally` methods are proved against these functions. The properties are proved as lemmas about the functions:

- the keys a tally adds;
- the per-bucket counts, as a multiset count of the bucket list;
- frame and monotonicity;
- the `total == new + revisit` balance;
- the global bucket counting N transactions and their summed size;
- the three-transaction example of 100, 200 and 50 bytes.

Two behaviours of the code are worth stating on their own:

- **Stopping after a transient error.** In `_run`, a transient error raised once stop is set ends `_run` without calling `_shutdown` (`warcprox/__init__.py:130`, `139-151`). Of the ways the loop stops on the stop signal, only the stop check on an empty queue (`135-138`) reaches the shutdown hook; the other call (`145`) belongs to the fatal error. `Warcprox.StopAfterTransientErrorSkipsShutdown` states this.
- **The exception raised on an unexpected upsert report.** The message built at `warcprox/stats.py:180` refers to `record`, a name that is not bound in `tally`. So a NameError is raised in place of the exception carrying the report. `Stats.RethinkStatsDb.Tally` raises that NameError, as the code does (see Findings). Both errors are transient to the stage.

## Model

| member | source | states |
|---|---|---|
| Warcprox.TimestampedQueue.Put | warcprox/__init__.py:53-55 | the item is appended at the tail, paired with the current time; the contents grow by exactly that item |
| Warcprox.TimestampedQueue.GetWithTimestamp | warcprox/__init__.py:61 | on an empty queue nothing is returned and nothing changes (queue.Empty); otherwise the head (timestamp, item) pair is returned and removed |
| Warcprox.TimestampedQueue.Get | warcprox/__init__.py:57-59 | returns only the head item, drops its timestamp, and the contents lose exactly their head; empty gives None |
| Warcprox.TimestampedQueue.OldestTimestamp | warcprox/__init__.py:63-69 | None if and only if the queue is empty; otherwise the head's enqueue time, without removing it |
| Warcprox.TimestampedQueue.SecondsBehind | warcprox/__init__.py:71-76 | 0 on an empty queue, otherwise now minus the head's enqueue time |
| Warcprox.QueueIsFifo | warcprox/__init__.py:48-69 | two puts then gets return the items in put order, and then empty; after the first get the oldest timestamp is the second put's |
| Warcprox.StandardProcessor.constructor | warcprox/__init__.py:102-107 | the stage keeps its input queue, its output queue (null for a terminal stage) and, for the listener adapter (`188-190`), its listener; nothing is processed yet |
| Warcprox.Listener.Notify | warcprox/__init__.py:193 | the notification capability records exactly the (recorded URL, records) pair it is called with |
| Warcprox.StandardProcessor.ProcessUrl | warcprox/__init__.py:192-193 | the listener adapter's step calls notify with the recorded URL and its own WARC records, once; the step raises what processing raises |
| Warcprox.StandardProcessor.GetProcessPut | warcprox/__init__.py:157-161 | an empty input queue raises queue.Empty and changes nothing; otherwise the head is taken and processed; on success that same item goes to the output queue's tail (if there is one); on failure it is dropped; correct when the output queue is the input queue |
| Warcprox.PutAll | warcprox/__init__.py:180-182 | every batch item is put on the queue in order, each with its timestamp; the queue's contents gain exactly the items, and nothing else changes |
| Warcprox.BatchProcessor.constructor | warcprox/__init__.py:102-107 | the batch stage keeps its input and output queues; no batch is processed yet |
| Warcprox.BatchProcessor.ProcessBatch | warcprox/__init__.py:184-185 | the abstract batch step receives the batch once and raises what processing raises |
| Warcprox.BatchProcessor.TakeBatch | warcprox/__init__.py:169-176 | takes exactly the first min(500, n) items of an input of n, in order, leaving the rest queued |
| Warcprox.BatchProcessor.GetProcessPut | warcprox/__init__.py:166-182 | the batch is the first min(500, n) input items, so 1 to 500 of them unless the queue was empty (queue.Empty, nothing changes); the batch is processed once; on success all of it goes to the output queue in order, whose contents gain exactly the batch; on failure it is neither forwarded nor requeued |
| Warcprox.Classify | warcprox/__init__.py:140 | an error is fatal if and only if it is OSError with errno 28 |
| Warcprox.Run | warcprox/__init__.py:129-151 | with stop already set no step is made and shutdown is not called; no step before the last ends the loop; a fatal error calls shutdown once and exits with status 1; otherwise the loop stops only once stop is set, after an empty queue (one shutdown) or a transient error (no shutdown); with a hook that does not raise, shutdown is called at most once |
| Warcprox.SurvivesTransientError | warcprox/__init__.py:139-151 | after a transient error the stage goes on to make another step |
| Warcprox.FatalErrorExits | warcprox/__init__.py:140-146 | a fatal error at step i ends the run at that step, with exit status 1 and exactly one shutdown |
| Warcprox.StopOnEmptyQueueShutsDownOnce | warcprox/__init__.py:130-138 | an empty queue once stop is set ends the run at that step with exactly one shutdown |
| Warcprox.StopAfterTransientErrorSkipsShutdown | warcprox/__init__.py:130-151 | a transient error once stop is set ends the run at that step with no shutdown |
| Stats.EmptyBucket | warcprox/stats.py:21-39 | a record named after the bucket with every urls and wire_bytes counter zero |
| Stats.CustomBuckets | warcprox/stats.py:77-79 | helper of `BucketsFor`: the Warcprox-Meta `stats.buckets` list when every key on that path is present (also `156-158`), otherwise none |
| Stats.BucketsFor | warcprox/stats.py:75-82 | the buckets start with `__all__`, followed by the Warcprox-Meta stats buckets when that path is present, otherwise by `__unspecified__` alone |
| Stats.BucketList | warcprox/stats.py:154-161 | the bucket list the tallies build is exactly `BucketsFor` of the metadata |
| Stats.Stored | warcprox/stats.py:85-88 | helper of `TallyAll`: the stored record of the bucket, or the empty record when it is absent (also `165`, the table's row or `_empty_bucket`) |
| Stats.Bump | warcprox/stats.py:90-98 | helper of `TallyAll`: one transaction bumps total, and revisit for a revisit record or new otherwise, by one URL and its size (also `167-175`); its properties are stated by `TallyAllCounts` and `TallyAllConsistent` |
| Stats.TallyAll | warcprox/stats.py:84-100 | the specification of the per-bucket loop: bumping each listed bucket in turn; no bucket is lost and every listed bucket is present afterwards |
| Stats.Tallied | warcprox/stats.py:84-100 | the specification of one tally: no WARC records leave the store as it was (IndexError before any write); otherwise exactly the transaction's buckets are added to the keys |
| Stats.TallyAllKeys | warcprox/stats.py:84-100 | a tally adds exactly the listed buckets to the store's keys |
| Stats.TallyAllCounts | warcprox/stats.py:84-100 | per occurrence in the list, a bucket's total gains one URL and size bytes, and so does its revisit category (revisit) or its new category (otherwise); the other category is unchanged; a new bucket starts from the empty record |
| Stats.TallyAllFrame | warcprox/stats.py:84-100 | buckets not listed keep their record, and stay absent if they were absent |
| Stats.TallyAllGrows | warcprox/stats.py:90-98 | no counter of any bucket decreases |
| Stats.TallyAllConsistent | warcprox/stats.py:90-98 | every record stays filed under its own name with total = new + revisit for urls and wire bytes |
| Stats.TalliedAllConsistent | warcprox/stats.py:84-100 | the same balance holds after any sequence of tallies |
| Stats.GlobalBucketCountsEveryTransaction | warcprox/stats.py:84-100 | after N tallied transactions the global bucket's total gains N URLs and their summed size (for transactions that do not list `__all__` again themselves) |
| Stats.TwoTransactionTally | warcprox/stats.py:84-100 | a new transaction in a custom bucket followed by a revisit without metadata leave the global, custom and unspecified records with the expected counts |
| Stats.ThreeTransactionTally | warcprox/stats.py:84-100 | adding a further new transaction in the custom bucket gives global 3 URLs (sum of sizes), 2 new, 1 revisit; custom 2 new; unspecified 1 revisit |
| Stats.ExampleTally | warcprox/stats.py:84-100 | transactions of 100, 200 and 50 bytes give `__all__` (3, 350) total, (2, 150) new, (1, 200) revisit; `siteA` (2, 150) total and new; `__unspecified__` (1, 200) total and revisit |
| Stats.Field | warcprox/stats.py:66-68 | indexing a record raises KeyError(key) exactly for keys other than bucket, total, new and revisit; bucket gives the name and each category key its category |
| Stats.Subfield | warcprox/stats.py:66 | urls and wire_bytes index a category, any other key raises KeyError, and indexing the bucket name raises TypeError |
| Stats.Lookup | warcprox/stats.py:61-72 | `Answers`, level by level: None if and only if the bucket is not stored; the whole record without bucket1; the bucket name or the named category without bucket2; the named counter of the named category; KeyError for a missing key at either level and TypeError for indexing the bucket name |
| Stats.AnswersDetermined | warcprox/stats.py:61-72 | `Answers` allows exactly one result for every lookup, so it specifies value() completely |
| Stats.LookupAfterTally | warcprox/stats.py:61-100 | after a tally, value(b, "total", "urls") and value(b, "total", "wire_bytes") read the bumped totals |
| Stats.StatsDb.constructor | warcprox/stats.py:44-50 | opening the file gives its existing contents, an empty map for a new file |
| Stats.StatsDb.Value | warcprox/stats.py:61-72 | `Answers` over the file's contents: None, whole record, field or counter, or the indexing error, level by level |
| Stats.StatsDb.Tally | warcprox/stats.py:74-100 | the file afterwards is the tally function of the file before; with no WARC records it raises IndexError before any write |
| Stats.Ensured | warcprox/stats.py:123-132 | afterwards the database exists and holds the table; other databases and the other tables are unchanged |
| Stats.CreationsNeeded | warcprox/stats.py:123-132 | a database is created if and only if it is missing; the table (primary key `bucket`, configured shards and replicas) is created if and only if it is missing; nothing else is ever sent, so at most these two changes |
| Stats.EnsureDbTableIdempotent | warcprox/stats.py:123-132 | ensuring the schema a second time changes nothing and creates nothing |
| Stats.RethinkStatsDb.EnsureDbTable | warcprox/stats.py:123-132 | the check-then-create leaves the catalog at `Ensured`, sends exactly `CreationsNeeded`, and leaves an existing table's rows alone, while a table it creates starts with no rows |
| Stats.RethinkStatsDb.constructor | warcprox/stats.py:105-111 | keeps the configuration, by default database `warcprox`, table `stats`, 3 shards and 3 replicas, and ensures the schema at construction; an existing table keeps its rows and a table created there starts empty |
| Stats.RethinkStatsDb.Value | warcprox/stats.py:140-151 | `Answers` over the table's rows: None for a missing row, whole row, field or counter, or the indexing error, level by level |
| Stats.ExpectedReport | warcprox/stats.py:179 | helper of `ExpectedReportMeans`: the check as written, the sorted counters are five zeros and a one, and deleted, skipped and errors are zero |
| Stats.ExpectedReportMeans | warcprox/stats.py:179 | the sorted-values check accepts a report if and only if exactly one row was inserted, replaced or left unchanged and nothing was deleted, skipped or failed |
| Stats.SingleRowReportExpected | warcprox/stats.py:179 | every single-row-affected report passes the check |
| Stats.ExpectedReportSingleRow | warcprox/stats.py:179 | every report passing the check affected a single row |
| Stats.FirstRejected | warcprox/stats.py:164-180 | the index of the first rejected report: all before it are accepted, and it is rejected unless it is the end |
| Stats.NoneRejected | warcprox/stats.py:164-180 | when every report on the bucket list is single-row, no upsert is rejected and the prefix of the list `RethinkStatsDb.Tally` writes is the whole list, so its table ends as the full tally, as `StatsDb.Tally` writes, and the tally succeeds |
| Stats.RethinkStatsDb.UpsertBucket | warcprox/stats.py:165-180 | the row is overwritten with the bumped record (or a bumped empty record), the write modelled as applied whatever the report; a report that is not single-row raises, after the write, the NameError the code as written raises |
| Stats.RethinkStatsDb.Tally | warcprox/stats.py:153-180 | the table afterwards is the tally of the bucket list up to and including the first rejected upsert, every upsert modelled as applied; that rejection raises the as-written NameError, otherwise success; with no WARC records it raises IndexError before any write |
| Stats.SaveError | warcprox/stats.py:180 | the intended error carries the rejected report |
| Stats.SaveErrorAsWritten | warcprox/stats.py:180 | as written the raised error is a NameError for `record`, whatever the report |
| Stats.SaveErrorAsWrittenLosesReport | warcprox/stats.py:180 | the as-written error is the same for every report and never the intended one, while the intended one tells reports apart; both are transient to the stage |

## Left out

- Threads, the `threading.Event` stop signal, `time.sleep`, `sys.exit` and the optional cProfile wrapper of `run()` (`warcprox/__init__.py:108-116`). `ListenerPostfetchProcessor.__init__` passes its `profile` flag into the `options` slot (`189`, `102`), so `run()` reading `self.options.profile` (`109`) would raise AttributeError for the default `profile=False`, outside `_run`'s handlers; its callers are not part of this model and nothing here follows that path. For the rest: the run loop is a method over a script of step outcomes and a step count at which stop is seen set. `sys.exit(1)` is called inside the stage's thread, where the SystemExit it raises ends that thread; the model records it as the run's end with status 1 and does not model what it does to the process.
- Blocking gets with a timeout, bounded queues and the queue mutex: a get on an empty queue returns None at once (queue.Empty), and the queue is modelled as unbounded, so a put never blocks or raises queue.Full.
- `datetime.utcnow()` and float seconds: the clock is an integer `now` supplied by the caller.
- Warcprox.TimestampedQueue.SecondsBehind: returns whole seconds on an integer clock rather than float seconds.
- Warcprox.BatchProcessor.GetProcessPut: every item of the batch is put with the same `now`, whereas the source reads the clock once per put.
- The processing bodies of concrete stages: per-item and per-batch processing is abstract in this core, so the model logs what it received and raises the input `failure`.
- The dbm file itself: `open`, `sync`, `close`, JSON encoding and the logging calls. The file is modelled as its decoded contents, a map from bucket name to record.
- The rethinkdb driver: random choice of server, connections, query building and the debug log. The schema is a catalog map, the table is a map, and the server's reports are an input.
- Upsert reports are modelled as their six counters only. Other fields of a real report (such as a `first_error` string) are not modelled; with such a field, sorting the report's values could raise TypeError before the check at `warcprox/stats.py:179`.
- Stats.RethinkStatsDb.UpsertBucket / Stats.RethinkStatsDb.Tally: every upsert is modelled as applied whatever the server reports. A rejected report (for example `errors = 1`) usually means the server did not write the row, so for the rejected bucket the real table may be unchanged rather than bumped; the report is an input unrelated to the table in the model.
- The `servers` list of `RethinkStatsDb` (default `["localhost"]`, `warcprox/stats.py:105`): there is one modelled server, the table map.
- The dbm file name of `StatsDb` (default `./warcprox-stats.db`, `warcprox/stats.py:44`): the constructor takes the file's decoded contents instead of its name.
- The constructors of `Warcprox.TimestampedQueue` and `Warcprox.Listener` have no row: the first stands for the `queue.Queue()` construction that `TimestampedQueue` inherits, and the second belongs to the notification capability, which is external to the core.
- Concurrency between tallies, the last-write-wins race on the RethinkDB table: each tally runs alone in the model.
- `digest_str`, `Options`, `gettid`, `RequestBlockedByRule`, version lookup, the logging-level registration and the submodule imports of `warcprox/__init__.py`: they lie outside the postfetch pipeline and the statistics.
- Warcprox.Run: the shutdown hook is assumed not to raise. In the source it is called inside the `try` (`warcprox/__init__.py:138`), so a hook raising errno 28 would reach the fatal handler and be called a second time (`145`); the base hook (`153-154`) does nothing, and overriding hooks are not part of this model.
- Warcprox.Run: the stop signal is a threshold on the number of steps made; a signal set in the middle of a step is seen at the next check.
- Stats.GlobalBucketCountsEveryTransaction: requires each transaction to have WARC records and not to name `__all__` as a custom bucket; without the first, its tally raises before any write, and with the second it is counted twice in `__all__`.

## Findings

| source | as written | input that shows it | evidently intended | confidence | as-written member | corrected member |
|---|---|---|---|---|---|---|
| warcprox/stats.py:180 | the message of the exception raised for an unexpected upsert report refers to `record`, a name not bound in `tally`, so a NameError is raised in place of the exception, and the report is lost | an upsert report holding only the six counters that is not single-row, e.g. all six zero | raise an exception carrying the report (and the record being saved) | high; not executed | Stats.SaveErrorAsWritten (raised by Stats.RethinkStatsDb.Tally) | Stats.SaveError (with Stats.SaveErrorAsWrittenLosesReport) |
