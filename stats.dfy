/**
 * The bucketed statistics of warcprox/stats.py: a counters record per
 * bucket name, the tally that attributes each recorded transaction to its
 * buckets, the hierarchical `value` lookup, and the two backends (a local
 * dbm file and a RethinkDB table), both modelled as a map from bucket name
 * to counters record.
 */
module Stats {
  import opened Wrappers
  import opened Records
  import Warcprox

  /** The bucket every transaction is counted in. */
  const ALL: string := "__all__"
  /** The bucket of a transaction whose Warcprox-Meta names no buckets. */
  const UNSPECIFIED: string := "__unspecified__"

  /** The `urls` and `wire_bytes` counters of one category. */
  datatype Category = Category(urls: nat, wireBytes: nat)

  /**
   * The counters record of one bucket, the JSON document
   * `{bucket, total, new, revisit}` (`new` is a Dafny keyword, hence `new_`).
   */
  datatype Counters = Counters(bucket: string, total: Category, new_: Category, revisit: Category)

  /** The contents of a stats store: bucket name to counters record. */
  type Store = map<string, Counters>

  /** A fresh record for `bucket`, every counter zero. */
  function EmptyBucket(bucket: string): (c: Counters)
    ensures c.bucket == bucket
    ensures c.total == Category(0, 0) && c.new_ == Category(0, 0) && c.revisit == Category(0, 0)
  {
    Counters(bucket, Category(0, 0), Category(0, 0), Category(0, 0))
  }

  /** `total` is the sum of `new` and `revisit`, for both counters. */
  predicate Balanced(c: Counters)
  {
    c.total.urls == c.new_.urls + c.revisit.urls &&
    c.total.wireBytes == c.new_.wireBytes + c.revisit.wireBytes
  }

  /** Every record is filed under its own bucket name and is balanced. */
  predicate Consistent(db: Store)
  {
    forall b :: b in db ==> db[b].bucket == b && Balanced(db[b])
  }

  /** `cat` after `n` more URLs of `size` wire bytes each. */
  function Plus(cat: Category, n: nat, size: nat): Category
  {
    Category(cat.urls + n, cat.wireBytes + n * size)
  }

  /** One bucket's record after one more transaction of `size` bytes. */
  function Bump(c: Counters, size: nat, revisit: bool): Counters
  {
    c.(total := Plus(c.total, 1, size),
       new_ := if revisit then c.new_ else Plus(c.new_, 1, size),
       revisit := if revisit then Plus(c.revisit, 1, size) else c.revisit)
  }

  /** What a tally starts from for `bucket`: the stored record, or an empty one. */
  function Stored(db: Store, bucket: string): Counters
  {
    if bucket in db then db[bucket] else EmptyBucket(bucket)
  }

  // ---------------------------------------------------------------------
  // The bucket list of a transaction
  // ---------------------------------------------------------------------

  /** `warcprox_meta["stats"]["buckets"]`, when every key on that path is present. */
  function CustomBuckets(meta: Option<WarcproxMeta>): Option<seq<string>>
  {
    if meta.Some? && meta.value.stats.Some? then meta.value.stats.value.buckets else None
  }

  /** The buckets a transaction with Warcprox-Meta `meta` is counted in, in tally order. */
  function BucketsFor(meta: Option<WarcproxMeta>): (buckets: seq<string>)
    ensures 1 <= |buckets| && buckets[0] == ALL
    ensures CustomBuckets(meta).Some? ==> buckets[1..] == CustomBuckets(meta).value
    ensures CustomBuckets(meta).None? ==> buckets == [ALL, UNSPECIFIED]
  {
    [ALL] + match CustomBuckets(meta) case Some(custom) => custom case None => [UNSPECIFIED]
  }

  // ---------------------------------------------------------------------
  // The tally, as a function of the store
  // ---------------------------------------------------------------------

  /** The store after bumping each listed bucket in turn (a bucket listed twice is bumped twice). */
  function TallyAll(db: Store, buckets: seq<string>, size: nat, revisit: bool): (after: Store)
    ensures db.Keys <= after.Keys
    ensures forall b :: b in buckets ==> b in after
    decreases |buckets|
  {
    if buckets == [] then db
    else
      var before := TallyAll(db, buckets[..|buckets| - 1], size, revisit);
      var b := buckets[|buckets| - 1];
      before[b := Bump(Stored(before, b), size, revisit)]
  }

  /**
   * The store after tallying `recordedUrl` with WARC records `records`.
   * An empty `records` makes the tally raise IndexError before any write.
   */
  function Tallied(db: Store, recordedUrl: RecordedUrl, records: seq<WarcRecord>): (after: Store)
    ensures records == [] ==> after == db
    ensures records != [] ==> after.Keys == db.Keys + set b | b in BucketsFor(recordedUrl.warcproxMeta)
  {
    if records == [] then db
    else
      TallyAllKeys(db, BucketsFor(recordedUrl.warcproxMeta), recordedUrl.size, IsRevisit(records[0]));
      TallyAll(db, BucketsFor(recordedUrl.warcproxMeta), recordedUrl.size, IsRevisit(records[0]))
  }

  lemma StoredUpdate(db: Store, k: string, v: Counters, b: string)
    ensures Stored(db[k := v], b) == if b == k then v else Stored(db, b)
  {
  }

  /** A tally adds exactly the listed buckets to the store. */
  lemma {:induction false} TallyAllKeys(db: Store, buckets: seq<string>, size: nat, revisit: bool)
    ensures TallyAll(db, buckets, size, revisit).Keys == db.Keys + set b | b in buckets
  {
    if buckets != [] {
      var init := buckets[..|buckets| - 1];
      TallyAllKeys(db, init, size, revisit);
      assert buckets == init + [buckets[|buckets| - 1]];
      assert (set b | b in buckets) == (set b | b in init) + {buckets[|buckets| - 1]};
    }
  }

  /**
   * Per occurrence of a bucket in the list, a tally adds one URL and `size`
   * wire bytes to its `total`, and the same to `revisit` (for a revisit) or
   * to `new` (otherwise); the other category and the name are unchanged.
   * A bucket that was not stored starts from an empty record.
   */
  lemma {:induction false} TallyAllCounts(db: Store, buckets: seq<string>, size: nat, revisit: bool, b: string)
    ensures var n := multiset(buckets)[b];
      var before := Stored(db, b);
      var after := Stored(TallyAll(db, buckets, size, revisit), b);
      after.bucket == before.bucket &&
      after.total == Plus(before.total, n, size) &&
      after.new_ == (if revisit then before.new_ else Plus(before.new_, n, size)) &&
      after.revisit == (if revisit then Plus(before.revisit, n, size) else before.revisit)
  {
    if buckets != [] {
      var init := buckets[..|buckets| - 1];
      var last := buckets[|buckets| - 1];
      assert buckets == init + [last];
      var mid := TallyAll(db, init, size, revisit);
      TallyAllCounts(db, init, size, revisit, b);
      var n := multiset(init)[b];
      if last == b {
        assert multiset(buckets)[b] == n + 1;
        var c := Stored(mid, b);
        assert Stored(TallyAll(db, buckets, size, revisit), b) == Bump(c, size, revisit);
        PlusTwice(Stored(db, b).total, n, size);
        PlusTwice(Stored(db, b).new_, n, size);
        PlusTwice(Stored(db, b).revisit, n, size);
      } else {
        assert multiset(buckets)[b] == n;
        assert Stored(TallyAll(db, buckets, size, revisit), b) == Stored(mid, b);
      }
    }
  }

  lemma PlusTwice(cat: Category, n: nat, size: nat)
    ensures Plus(Plus(cat, n, size), 1, size) == Plus(cat, n + 1, size)
  {
    assert (n + 1) * size == n * size + size;
  }

  /** Buckets not in the list keep their record, and stay absent if they were absent. */
  lemma TallyAllFrame(db: Store, buckets: seq<string>, size: nat, revisit: bool, k: string)
    requires k !in buckets
    ensures var after := TallyAll(db, buckets, size, revisit);
      (k in after <==> k in db) && (k in db ==> after[k] == db[k])
  {
    TallyAllKeys(db, buckets, size, revisit);
    TallyAllCounts(db, buckets, size, revisit, k);
    assert multiset(buckets)[k] == 0;
  }

  /** No counter of any bucket ever decreases. */
  lemma TallyAllGrows(db: Store, buckets: seq<string>, size: nat, revisit: bool, b: string)
    ensures var before := Stored(db, b);
      var after := Stored(TallyAll(db, buckets, size, revisit), b);
      before.total.urls <= after.total.urls && before.total.wireBytes <= after.total.wireBytes &&
      before.new_.urls <= after.new_.urls && before.new_.wireBytes <= after.new_.wireBytes &&
      before.revisit.urls <= after.revisit.urls && before.revisit.wireBytes <= after.revisit.wireBytes
  {
    TallyAllCounts(db, buckets, size, revisit, b);
  }

  /** A tally keeps every record filed under its own name and balanced. */
  lemma {:induction false} TallyAllConsistent(db: Store, buckets: seq<string>, size: nat, revisit: bool)
    requires Consistent(db)
    ensures Consistent(TallyAll(db, buckets, size, revisit))
  {
    if buckets != [] {
      TallyAllConsistent(db, buckets[..|buckets| - 1], size, revisit);
    }
  }

  /** The store after tallying each (transaction, records) pair in turn. */
  function TalliedAll(db: Store, txs: seq<(RecordedUrl, seq<WarcRecord>)>): Store
    decreases |txs|
  {
    if txs == [] then db
    else
      var last := txs[|txs| - 1];
      Tallied(TalliedAll(db, txs[..|txs| - 1]), last.0, last.1)
  }

  /** The summed wire size of the transactions. */
  function TotalSize(txs: seq<(RecordedUrl, seq<WarcRecord>)>): nat
    decreases |txs|
  {
    if txs == [] then 0 else TotalSize(txs[..|txs| - 1]) + txs[|txs| - 1].0.size
  }

  /** Whether a transaction is counted exactly once in the global bucket. */
  predicate CountedOnceInAll(tx: (RecordedUrl, seq<WarcRecord>))
  {
    tx.1 != [] && (CustomBuckets(tx.0.warcproxMeta).Some? ==> ALL !in CustomBuckets(tx.0.warcproxMeta).value)
  }

  /**
   * After N tallied transactions the global bucket's `total` counts N more
   * URLs and their summed size more wire bytes (provided no transaction
   * names the global bucket among its own buckets, which would count it
   * twice).
   */
  lemma {:induction false} GlobalBucketCountsEveryTransaction(db: Store, txs: seq<(RecordedUrl, seq<WarcRecord>)>)
    requires forall i :: 0 <= i < |txs| ==> CountedOnceInAll(txs[i])
    ensures Stored(TalliedAll(db, txs), ALL).total ==
      Category(Stored(db, ALL).total.urls + |txs|, Stored(db, ALL).total.wireBytes + TotalSize(txs))
  {
    if txs != [] {
      var init := txs[..|txs| - 1];
      var last := txs[|txs| - 1];
      assert txs == init + [last];
      GlobalBucketCountsEveryTransaction(db, init);
      GlobalBucketStep(db, init, last);
    }
  }

  /** One more transaction counted once adds one URL and its size to the global total. */
  lemma GlobalBucketStep(db: Store, init: seq<(RecordedUrl, seq<WarcRecord>)>, last: (RecordedUrl, seq<WarcRecord>))
    requires CountedOnceInAll(last)
    ensures var before := Stored(TalliedAll(db, init), ALL).total;
      Stored(TalliedAll(db, init + [last]), ALL).total ==
        Category(before.urls + 1, before.wireBytes + last.0.size)
  {
    assert (init + [last])[..|init|] == init;
    var mid := TalliedAll(db, init);
    var buckets := BucketsFor(last.0.warcproxMeta);
    AllListedOnce(last.0.warcproxMeta);
    TallyAllCounts(mid, buckets, last.0.size, IsRevisit(last.1[0]), ALL);
    assert TalliedAll(db, init + [last]) == TallyAll(mid, buckets, last.0.size, IsRevisit(last.1[0]));
  }

  /** The global bucket is listed once, unless the custom buckets name it too. */
  lemma AllListedOnce(meta: Option<WarcproxMeta>)
    requires CustomBuckets(meta).Some? ==> ALL !in CustomBuckets(meta).value
    ensures multiset(BucketsFor(meta))[ALL] == 1
  {
    var buckets := BucketsFor(meta);
    assert buckets == [ALL] + buckets[1..];
    assert ALL !in buckets[1..];
  }

  /** Tallying any transactions keeps every record balanced. */
  lemma {:induction false} TalliedAllConsistent(db: Store, txs: seq<(RecordedUrl, seq<WarcRecord>)>)
    requires Consistent(db)
    ensures Consistent(TalliedAll(db, txs))
  {
    if txs != [] {
      var last := txs[|txs| - 1];
      TalliedAllConsistent(db, txs[..|txs| - 1]);
      if last.1 != [] {
        TallyAllConsistent(TalliedAll(db, txs[..|txs| - 1]), BucketsFor(last.0.warcproxMeta), last.0.size, IsRevisit(last.1[0]));
      }
    }
  }

  /** A response record of a fresh fetch, and a revisit record. */
  const RESPONSE_RECORD: WarcRecord := WarcRecord(Some("response"))
  const REVISIT_RECORD: WarcRecord := WarcRecord(Some(REVISIT))

  /**
   * Three transactions of 100, 200 and 50 bytes: the first and third in
   * bucket "siteA" and new, the second with no metadata and a revisit.
   */
  function ExampleTransactions(): seq<(RecordedUrl, seq<WarcRecord>)>
  {
    var siteA := Some(WarcproxMeta(Some(StatsMeta(Some(["siteA"])))));
    [ (RecordedUrl("http://a.example/1", 100, siteA, [RESPONSE_RECORD]), [RESPONSE_RECORD]),
      (RecordedUrl("http://b.example/2", 200, None, [REVISIT_RECORD]), [REVISIT_RECORD]),
      (RecordedUrl("http://a.example/3", 50, siteA, [RESPONSE_RECORD]), [RESPONSE_RECORD]) ]
  }

  /**
   * Two transactions into an empty store: the first new and in one custom
   * bucket `site`, the second a revisit without metadata.
   */
  lemma TwoTransactionTally(txs: seq<(RecordedUrl, seq<WarcRecord>)>, site: string)
    requires |txs| >= 2 && site != ALL && site != UNSPECIFIED
    requires txs[0].1 != [] && txs[1].1 != []
    requires CustomBuckets(txs[0].0.warcproxMeta) == Some([site])
    requires txs[1].0.warcproxMeta == None
    requires !IsRevisit(txs[0].1[0]) && IsRevisit(txs[1].1[0])
    ensures var db := TalliedAll(map[], txs[..2]);
      var (n1, n2) := (txs[0].0.size, txs[1].0.size);
      db.Keys == {ALL, site, UNSPECIFIED} &&
      db[ALL] == Counters(ALL, Category(2, n1 + n2), Category(1, n1), Category(1, n2)) &&
      db[site] == Counters(site, Category(1, n1), Category(1, n1), Category(0, 0)) &&
      db[UNSPECIFIED] == Counters(UNSPECIFIED, Category(1, n2), Category(0, 0), Category(1, n2))
  {
    var e: Store := map[];
    assert txs[..0] + [txs[0]] == txs[..1];
    TallyStep(e, txs[..0], txs[0], ALL, site);
    var db1 := TalliedAll(e, txs[..1]);
    assert db1.Keys == {ALL, site};
    assert db1[site] == Counters(site, Category(1, txs[0].0.size), Category(1, txs[0].0.size), Category(0, 0));
    assert txs[..1] + [txs[1]] == txs[..2];
    TallyStep(e, txs[..1], txs[1], ALL, UNSPECIFIED);
  }

  /** The same with a third transaction, new and in `site` again. */
  lemma ThreeTransactionTally(txs: seq<(RecordedUrl, seq<WarcRecord>)>, site: string)
    requires |txs| == 3 && site != ALL && site != UNSPECIFIED
    requires txs[0].1 != [] && txs[1].1 != [] && txs[2].1 != []
    requires CustomBuckets(txs[0].0.warcproxMeta) == Some([site])
    requires CustomBuckets(txs[2].0.warcproxMeta) == Some([site])
    requires txs[1].0.warcproxMeta == None
    requires !IsRevisit(txs[0].1[0]) && IsRevisit(txs[1].1[0]) && !IsRevisit(txs[2].1[0])
    ensures var db := TalliedAll(map[], txs);
      var (n1, n2, n3) := (txs[0].0.size, txs[1].0.size, txs[2].0.size);
      db.Keys == {ALL, site, UNSPECIFIED} &&
      db[ALL] == Counters(ALL, Category(3, n1 + n2 + n3), Category(2, n1 + n3), Category(1, n2)) &&
      db[site] == Counters(site, Category(2, n1 + n3), Category(2, n1 + n3), Category(0, 0)) &&
      db[UNSPECIFIED] == Counters(UNSPECIFIED, Category(1, n2), Category(0, 0), Category(1, n2))
  {
    TwoTransactionTally(txs, site);
    assert txs[..2] + [txs[2]] == txs;
    TallyStep(map[], txs[..2], txs[2], ALL, site);
  }

  /** Those counters for the 100-, 200- and 50-byte example. */
  lemma ExampleTally()
    ensures var db := TalliedAll(map[], ExampleTransactions());
      db.Keys == {ALL, "siteA", UNSPECIFIED} &&
      db[ALL] == Counters(ALL, Category(3, 350), Category(2, 150), Category(1, 200)) &&
      db["siteA"] == Counters("siteA", Category(2, 150), Category(2, 150), Category(0, 0)) &&
      db[UNSPECIFIED] == Counters(UNSPECIFIED, Category(1, 200), Category(0, 0), Category(1, 200))
  {
    assert |ALL| == 7 && |"siteA"| == 5 && |UNSPECIFIED| == 15;
    ThreeTransactionTally(ExampleTransactions(), "siteA");
  }

  /** Tallying one more transaction, counted in the two buckets `b0` and `b1`. */
  lemma TallyStep(db: Store, init: seq<(RecordedUrl, seq<WarcRecord>)>,
                  tx: (RecordedUrl, seq<WarcRecord>), b0: string, b1: string)
    requires tx.1 != [] && b0 != b1 && BucketsFor(tx.0.warcproxMeta) == [b0, b1]
    ensures var before := TalliedAll(db, init);
      var revisit := IsRevisit(tx.1[0]);
      TalliedAll(db, init + [tx]) ==
        before[b0 := Bump(Stored(before, b0), tx.0.size, revisit)][b1 := Bump(Stored(before, b1), tx.0.size, revisit)]
  {
    assert (init + [tx])[..|init|] == init;
    TallyTwo(TalliedAll(db, init), b0, b1, tx.0.size, IsRevisit(tx.1[0]));
  }

  lemma TallyTwo(db: Store, b0: string, b1: string, size: nat, revisit: bool)
    requires b0 != b1
    ensures TallyAll(db, [b0, b1], size, revisit) ==
      db[b0 := Bump(Stored(db, b0), size, revisit)][b1 := Bump(Stored(db, b1), size, revisit)]
  {
    assert [b0, b1][..1] == [b0] && [b0][..0] == [];
    assert TallyAll(db, [b0][..0], size, revisit) == db;
    var once := TallyAll(db, [b0], size, revisit);
    assert once == db[b0 := Bump(Stored(db, b0), size, revisit)];
    StoredUpdate(db, b0, Bump(Stored(db, b0), size, revisit), b1);
    assert TallyAll(db, [b0, b1], size, revisit) == once[b1 := Bump(Stored(once, b1), size, revisit)];
  }

  // ---------------------------------------------------------------------
  // value(): the hierarchical lookup
  // ---------------------------------------------------------------------

  /** What `value` can return: a whole record, a category, a counter, or the `bucket` name. */
  datatype StatValue =
    | WholeRecord(record: Counters)
    | SubRecord(category: Category)
    | Counter(count: nat)
    | BucketName(name: string)

  /** `None` for an unknown bucket, a value, or the KeyError/TypeError the indexing raises. */
  datatype LookupResult = NotFound | Found(value: StatValue) | LookupError(error: Error)

  /** The keys of a record's JSON document, of its categories, and of a category's counters. */
  const RECORD_KEYS: set<string> := {"bucket", "total", "new", "revisit"}
  const CATEGORY_KEYS: set<string> := {"total", "new", "revisit"}
  const COUNTER_KEYS: set<string> := {"urls", "wire_bytes"}

  /** The category of `c` that the JSON key `name` holds. */
  function CategoryNamed(c: Counters, name: string): Category
    requires name in CATEGORY_KEYS
  {
    if name == "total" then c.total else if name == "new" then c.new_ else c.revisit
  }

  /** The counter of `cat` that the JSON key `name` holds. */
  function CounterNamed(cat: Category, name: string): nat
    requires name in COUNTER_KEYS
  {
    if name == "urls" then cat.urls else cat.wireBytes
  }

  /** `record[key]` on the JSON document of `c`. */
  function Field(c: Counters, key: string): (r: LookupResult)
    ensures r.LookupError? <==> key !in RECORD_KEYS
    ensures r.LookupError? ==> r.error == KeyError(key)
    ensures key == "bucket" ==> r == Found(BucketName(c.bucket))
    ensures key in CATEGORY_KEYS ==> r == Found(SubRecord(CategoryNamed(c, key)))
  {
    if key == "bucket" then Found(BucketName(c.bucket))
    else if key == "total" then Found(SubRecord(c.total))
    else if key == "new" then Found(SubRecord(c.new_))
    else if key == "revisit" then Found(SubRecord(c.revisit))
    else LookupError(KeyError(key))
  }

  /** `v[key]` for the value `v` of a field; indexing the bucket name with a string is a TypeError. */
  function Subfield(v: StatValue, key: string): (r: LookupResult)
    requires v.SubRecord? || v.BucketName?
    ensures r.LookupError? <==> v.BucketName? || key !in COUNTER_KEYS
    ensures v.BucketName? ==> r == LookupError(TypeError)
    ensures v.SubRecord? && key !in COUNTER_KEYS ==> r == LookupError(KeyError(key))
    ensures v.SubRecord? && key in COUNTER_KEYS ==> r == Found(Counter(CounterNamed(v.category, key)))
  {
    match v
    case SubRecord(cat) =>
      if key == "urls" then Found(Counter(cat.urls))
      else if key == "wire_bytes" then Found(Counter(cat.wireBytes))
      else LookupError(KeyError(key))
    case BucketName(_) => LookupError(TypeError)
  }

  /**
   * What `value(bucket0, bucket1, bucket2)` answers over the store `db`,
   * level by level: None for an unknown bucket; the whole record without
   * `bucket1`; the named field without `bucket2`; the named counter of the
   * named category; and the KeyError or TypeError the indexing raises.
   * An empty key is falsy in Python and acts as an omitted key.
   */
  predicate Answers(db: Store, bucket0: string, bucket1: string, bucket2: string, r: LookupResult)
  {
    (r == NotFound <==> bucket0 !in db) &&
    (bucket0 in db ==>
      var c := db[bucket0];
      (bucket1 == "" ==> r == Found(WholeRecord(c))) &&
      (bucket1 != "" && bucket1 !in RECORD_KEYS ==> r == LookupError(KeyError(bucket1))) &&
      (bucket1 == "bucket" && bucket2 == "" ==> r == Found(BucketName(c.bucket))) &&
      (bucket1 == "bucket" && bucket2 != "" ==> r == LookupError(TypeError)) &&
      (bucket1 in CATEGORY_KEYS && bucket2 == "" ==> r == Found(SubRecord(CategoryNamed(c, bucket1)))) &&
      (bucket1 in CATEGORY_KEYS && bucket2 != "" && bucket2 !in COUNTER_KEYS ==> r == LookupError(KeyError(bucket2))) &&
      (bucket1 in CATEGORY_KEYS && bucket2 in COUNTER_KEYS ==>
        r == Found(Counter(CounterNamed(CategoryNamed(c, bucket1), bucket2)))))
  }

  /** `value(bucket0, bucket1, bucket2)` over the store `db`, "" standing for `None`. */
  function Lookup(db: Store, bucket0: string, bucket1: string, bucket2: string): (r: LookupResult)
    ensures Answers(db, bucket0, bucket1, bucket2, r)
  {
    if bucket0 !in db then NotFound
    else if bucket1 == "" then Found(WholeRecord(db[bucket0]))
    else
      var field := Field(db[bucket0], bucket1);
      if bucket2 == "" || field.LookupError? then field
      else Subfield(field.value, bucket2)
  }

  /** `Answers` fixes the lookup's result: it is a complete specification of `value`. */
  lemma AnswersDetermined(db: Store, bucket0: string, bucket1: string, bucket2: string, r1: LookupResult, r2: LookupResult)
    requires Answers(db, bucket0, bucket1, bucket2, r1) && Answers(db, bucket0, bucket1, bucket2, r2)
    ensures r1 == r2
  {
    if bucket0 in db && bucket1 != "" && bucket1 in RECORD_KEYS && bucket1 != "bucket" {
      assert bucket1 in CATEGORY_KEYS;
    }
  }

  /** After a tally, `value(b, "total", ...)` of a listed bucket reads the bumped counters. */
  lemma LookupAfterTally(db: Store, recordedUrl: RecordedUrl, records: seq<WarcRecord>, b: string)
    requires records != [] && b in BucketsFor(recordedUrl.warcproxMeta)
    ensures var bumped := Plus(Stored(db, b).total, multiset(BucketsFor(recordedUrl.warcproxMeta))[b], recordedUrl.size);
      Lookup(Tallied(db, recordedUrl, records), b, "total", "urls") == Found(Counter(bumped.urls)) &&
      Lookup(Tallied(db, recordedUrl, records), b, "total", "wire_bytes") == Found(Counter(bumped.wireBytes))
  {
    var buckets := BucketsFor(recordedUrl.warcproxMeta);
    var after := Tallied(db, recordedUrl, records);
    TallyAllKeys(db, buckets, recordedUrl.size, IsRevisit(records[0]));
    TallyAllCounts(db, buckets, recordedUrl.size, IsRevisit(records[0]), b);
    assert "total" in CATEGORY_KEYS && "urls" in COUNTER_KEYS && "wire_bytes" in COUNTER_KEYS;
  }

  /**
   * The bucket list both tallies build: the global bucket, then the custom
   * buckets if the metadata lists any, else the unspecified bucket.
   */
  method BucketList(recordedUrl: RecordedUrl) returns (buckets: seq<string>)
    ensures buckets == BucketsFor(recordedUrl.warcproxMeta)
  {
    buckets := [ALL];
    var meta := recordedUrl.warcproxMeta;
    if meta.Some? && meta.value.stats.Some? && meta.value.stats.value.buckets.Some? {
      buckets := buckets + meta.value.stats.value.buckets.value;
    } else {
      buckets := buckets + [UNSPECIFIED];
    }
  }

  // ---------------------------------------------------------------------
  // The local (dbm) backend
  // ---------------------------------------------------------------------

  /** The dbm-file backend; `db` stands for the file's decoded contents. */
  class StatsDb {
    var db: Store

    /** Open the stats file; `existing` is what it holds (empty for a new file). */
    constructor (existing: Store)
      ensures db == existing
    {
      db := existing;
    }

    function Value(bucket0: string := ALL, bucket1: string := "", bucket2: string := ""): (r: LookupResult)
      reads this
      ensures Answers(db, bucket0, bucket1, bucket2, r)
    {
      Lookup(db, bucket0, bucket1, bucket2)
    }

    /**
     * Count `recordedUrl` in each of its buckets: read the record (or start
     * from an empty one), bump it, write it back.
     */
    method Tally(recordedUrl: RecordedUrl, records: seq<WarcRecord>) returns (r: Outcome<Error>)
      modifies this
      ensures records == [] ==> r == Fail(IndexError) && db == old(db)
      ensures records != [] ==> r == Pass
      ensures db == Tallied(old(db), recordedUrl, records)
    {
      var buckets := BucketList(recordedUrl);

      var i := 0;
      while i < |buckets|
        invariant 0 <= i <= |buckets|
        invariant records == [] ==> i == 0 && db == old(db)
        invariant records != [] ==> db == TallyAll(old(db), buckets[..i], recordedUrl.size, IsRevisit(records[0]))
      {
        var bucket := buckets[i];
        var stats := if bucket in db then db[bucket] else EmptyBucket(bucket);
        stats := stats.(total := Plus(stats.total, 1, recordedUrl.size));
        if records == [] {
          return Fail(IndexError);
        }
        if IsRevisit(records[0]) {
          stats := stats.(revisit := Plus(stats.revisit, 1, recordedUrl.size));
        } else {
          stats := stats.(new_ := Plus(stats.new_, 1, recordedUrl.size));
        }
        db := db[bucket := stats];
        assert buckets[..i + 1][..i] == buckets[..i];
        i := i + 1;
      }
      assert buckets[..i] == buckets;
      return Pass;
    }
  }

  // ---------------------------------------------------------------------
  // The replicated (RethinkDB) backend
  // ---------------------------------------------------------------------

  /** The server's databases and, for each, its table names. */
  type Catalog = map<string, set<string>>

  /** A schema change sent to the server. */
  datatype Creation =
    | DbCreate(db: string)
    | TableCreate(db: string, table: string, primaryKey: string, shards: nat, replicas: nat)

  /** The catalog once database `db` and its table `table` exist. */
  function Ensured(catalog: Catalog, db: string, table: string): (c: Catalog)
    ensures db in c && table in c[db]
    ensures c.Keys == catalog.Keys + {db}
    ensures forall d :: d in catalog && d != db ==> c[d] == catalog[d]
    ensures db in catalog ==> c[db] == catalog[db] + {table}
    ensures db !in catalog ==> c[db] == {table}
  {
    catalog[db := (if db in catalog then catalog[db] else {}) + {table}]
  }

  /** The creations a check-then-create issues against `catalog`: only what is missing. */
  function CreationsNeeded(catalog: Catalog, db: string, table: string, shards: nat, replicas: nat): (cs: seq<Creation>)
    ensures DbCreate(db) in cs <==> db !in catalog
    ensures TableCreate(db, table, "bucket", shards, replicas) in cs <==> (db !in catalog || table !in catalog[db])
    ensures forall c :: c in cs ==> c == DbCreate(db) || c == TableCreate(db, table, "bucket", shards, replicas)
    ensures |cs| <= 2
  {
    (if db in catalog then [] else [DbCreate(db)]) +
    (if db in catalog && table in catalog[db] then [] else [TableCreate(db, table, "bucket", shards, replicas)])
  }

  /** Ensuring the schema a second time changes nothing and creates nothing. */
  lemma EnsureDbTableIdempotent(catalog: Catalog, db: string, table: string, shards: nat, replicas: nat)
    ensures Ensured(Ensured(catalog, db, table), db, table) == Ensured(catalog, db, table)
    ensures CreationsNeeded(Ensured(catalog, db, table), db, table, shards, replicas) == []
  {
    var once := Ensured(catalog, db, table);
    assert once[db] + {table} == once[db];
  }

  /**
   * The check of stats.py:179 on an upsert report: its six counters
   * sorted are [0,0,0,0,0,1], and deleted, skipped and errors are all zero.
   */
  predicate ExpectedReport(res: UpsertResult)
  {
    multiset{res.deleted, res.errors, res.inserted, res.replaced, res.skipped, res.unchanged_} ==
      multiset{0, 0, 0, 0, 0, 1} &&
    res.deleted == 0 && res.skipped == 0 && res.errors == 0
  }

  /** Exactly one row inserted, replaced or left unchanged, and nothing deleted, skipped or failed. */
  predicate SingleRowAffected(res: UpsertResult)
  {
    res.deleted == 0 && res.skipped == 0 && res.errors == 0 &&
    res.inserted + res.replaced + res.unchanged_ == 1
  }

  /** The sorted-values check of stats.py:179 accepts exactly the single-row-affected reports. */
  lemma ExpectedReportMeans(res: UpsertResult)
    ensures ExpectedReport(res) <==> SingleRowAffected(res)
  {
    if SingleRowAffected(res) {
      SingleRowReportExpected(res);
    }
    if ExpectedReport(res) {
      ExpectedReportSingleRow(res);
    }
  }

  lemma SingleRowReportExpected(res: UpsertResult)
    requires SingleRowAffected(res)
    ensures ExpectedReport(res)
  {
    var m := multiset{res.deleted, res.errors, res.inserted, res.replaced, res.skipped, res.unchanged_};
    if res.inserted == 1 {
      assert m == multiset{0, 0, 1, 0, 0, 0};
    } else if res.replaced == 1 {
      assert m == multiset{0, 0, 0, 1, 0, 0};
    } else {
      assert m == multiset{0, 0, 0, 0, 0, 1};
    }
  }

  lemma ExpectedReportSingleRow(res: UpsertResult)
    requires ExpectedReport(res)
    ensures SingleRowAffected(res)
  {
    var rest := multiset{res.inserted, res.replaced, res.unchanged_};
    assert multiset{0, 0, 0} + rest == multiset{0, 0, 0, 0, 0, 1};
    assert rest == multiset{0, 0, 1};
    assert res.inserted in rest && res.replaced in rest && res.unchanged_ in rest;
    assert rest[1] == (if res.inserted == 1 then 1 else 0) + (if res.replaced == 1 then 1 else 0) + (if res.unchanged_ == 1 then 1 else 0);
  }

  /** The index of the first upsert, from `from` on, whose report is not the expected shape; `n` if none. */
  function FirstRejected(respond: nat -> UpsertResult, from: nat, n: nat): (k: nat)
    requires from <= n
    ensures from <= k <= n
    ensures forall j :: from <= j < k ==> SingleRowAffected(respond(j))
    ensures k < n ==> !SingleRowAffected(respond(k))
    decreases n - from
  {
    if from == n then n
    else if !SingleRowAffected(respond(from)) then from
    else FirstRejected(respond, from + 1, n)
  }

  /** With every report accepted from `from` on, the search for a rejected report runs to `n`. */
  lemma NoneRejectedFrom(respond: nat -> UpsertResult, from: nat, n: nat)
    requires from <= n
    requires forall j :: from <= j < n ==> SingleRowAffected(respond(j))
    ensures FirstRejected(respond, from, n) == n
  {
  }

  /**
   * When every report on a bucket list has the expected shape, no upsert is
   * rejected, and the prefix of the list that RethinkStatsDb.Tally writes is
   * the whole list: the table ends as `TallyAll` of the whole list, which is
   * what StatsDb.Tally writes to its file, and the tally succeeds.
   */
  lemma NoneRejected(respond: nat -> UpsertResult, buckets: seq<string>)
    requires forall j :: 0 <= j < |buckets| ==> SingleRowAffected(respond(j))
    ensures var k := FirstRejected(respond, 0, |buckets|);
      !(k < |buckets|) && buckets[..if k < |buckets| then k + 1 else k] == buckets
  {
    NoneRejectedFrom(respond, 0, |buckets|);
  }

  /** The exception stats.py:180 means to raise for an unexpected upsert report. */
  function SaveError(res: UpsertResult): (e: Error)
    ensures e.UnexpectedUpsertResult? && e.result == res
  {
    UnexpectedUpsertResult(res)
  }

  /**
   * The exception stats.py:180 raises as written: building the message
   * reads the unbound name `record`, so a NameError replaces the intended
   * exception before it is raised.
   */
  function SaveErrorAsWritten(res: UpsertResult): (e: Error)
    ensures e == NameError("record")
  {
    NameError("record")
  }

  /**
   * As written, the raised error no longer carries the upsert report, and
   * it differs from the intended one; both are transient to the stage.
   */
  lemma SaveErrorAsWrittenLosesReport(res1: UpsertResult, res2: UpsertResult)
    ensures SaveErrorAsWritten(res1) == SaveErrorAsWritten(res2)
    ensures res1 != res2 ==> SaveError(res1) != SaveError(res2)
    ensures SaveErrorAsWritten(res1) != SaveError(res1)
    ensures Warcprox.Classify(SaveErrorAsWritten(res1)) == Warcprox.Transient
    ensures Warcprox.Classify(SaveError(res1)) == Warcprox.Transient
  {
  }

  /**
   * The RethinkDB backend. `catalog` and `creations` model the server's
   * schema and the schema changes sent to it; `rows` is the stats table.
   * Server selection and connections are not modelled.
   */
  class RethinkStatsDb {
    const db: string
    const table: string
    const shards: nat
    const replicas: nat
    var catalog: Catalog
    var creations: seq<Creation>
    var rows: Store

    /**
     * Connect to a server whose schema is `catalog` and whose table, if it
     * exists, holds `rows`, and ensure the schema: a table created here starts empty.
     */
    constructor (catalog: Catalog, rows: Store, db: string := "warcprox", table: string := "stats", shards: nat := 3, replicas: nat := 3)
      ensures this.db == db && this.table == table && this.shards == shards && this.replicas == replicas
      ensures this.catalog == Ensured(catalog, db, table)
      ensures creations == CreationsNeeded(catalog, db, table, shards, replicas)
      ensures this.rows == if db in catalog && table in catalog[db] then rows else map[]
    {
      this.db := db;
      this.table := table;
      this.shards := shards;
      this.replicas := replicas;
      this.catalog := catalog;
      this.rows := rows;
      creations := [];
      new;
      EnsureDbTable();
    }

    /** Create the database if it is absent, then the table if it is absent; a new table has no rows. */
    method EnsureDbTable()
      modifies this
      ensures catalog == Ensured(old(catalog), db, table)
      ensures creations == old(creations) + CreationsNeeded(old(catalog), db, table, shards, replicas)
      ensures rows == if db in old(catalog) && table in old(catalog)[db] then old(rows) else map[]
    {
      var dbs := catalog.Keys;
      if db !in dbs {
        creations := creations + [DbCreate(db)];
        catalog := catalog[db := {}];
      }
      var tables := catalog[db];
      if table !in tables {
        creations := creations + [TableCreate(db, table, "bucket", shards, replicas)];
        catalog := catalog[db := tables + {table}];
        rows := map[];
      } else {
        assert tables + {table} == tables;
      }
      assert db !in old(catalog) ==> catalog == old(catalog)[db := {} + {table}];
    }

    function Value(bucket0: string := ALL, bucket1: string := "", bucket2: string := ""): (r: LookupResult)
      reads this
      ensures Answers(rows, bucket0, bucket1, bucket2, r)
    {
      Lookup(rows, bucket0, bucket1, bucket2)
    }

    /**
     * One bucket's read-modify-write: read the record (or start from an
     * empty one), bump it, upsert it, and check the server's `report`.
     */
    method UpsertBucket(bucket: string, size: nat, revisit: bool, report: UpsertResult) returns (r: Outcome<Error>)
      modifies this`rows
      ensures rows == old(rows)[bucket := Bump(Stored(old(rows), bucket), size, revisit)]
      ensures r == if SingleRowAffected(report) then Pass else Fail(SaveErrorAsWritten(report))
    {
      var found := Value(bucket);
      var stats := if found.Found? && found.value.WholeRecord? then found.value.record else EmptyBucket(bucket);
      stats := stats.(total := Plus(stats.total, 1, size));
      if revisit {
        stats := stats.(revisit := Plus(stats.revisit, 1, size));
      } else {
        stats := stats.(new_ := Plus(stats.new_, 1, size));
      }
      rows := rows[bucket := stats];
      ExpectedReportMeans(report);
      if !ExpectedReport(report) {
        return Fail(SaveErrorAsWritten(report));
      }
      return Pass;
    }

    /**
     * The same per-bucket update as StatsDb.Tally, each record written with
     * an unconditional upsert; `respond(i)` is the server's report on the
     * i-th upsert. The first report not of the expected shape raises, after
     * its own write and before any later bucket's; the error raised is the
     * one the code as written raises (SaveErrorAsWritten).
     */
    method Tally(recordedUrl: RecordedUrl, records: seq<WarcRecord>, respond: nat -> UpsertResult) returns (r: Outcome<Error>)
      modifies this`rows
      ensures records == [] ==> r == Fail(IndexError) && rows == old(rows)
      ensures records != [] ==>
        var buckets := BucketsFor(recordedUrl.warcproxMeta);
        var k := FirstRejected(respond, 0, |buckets|);
        rows == TallyAll(old(rows), buckets[..if k < |buckets| then k + 1 else k], recordedUrl.size, IsRevisit(records[0])) &&
        r == if k < |buckets| then Fail(SaveErrorAsWritten(respond(k))) else Pass
    {
      var buckets := BucketList(recordedUrl);
      ghost var k := FirstRejected(respond, 0, |buckets|);

      var i := 0;
      while i < |buckets|
        invariant 0 <= i <= |buckets| && i <= k
        invariant records == [] ==> i == 0 && rows == old(rows)
        invariant records != [] ==> rows == TallyAll(old(rows), buckets[..i], recordedUrl.size, IsRevisit(records[0]))
      {
        // records[0] raises IndexError on the first bucket, after a read and before any write
        if records == [] {
          return Fail(IndexError);
        }
        var saved := UpsertBucket(buckets[i], recordedUrl.size, IsRevisit(records[0]), respond(i));
        assert buckets[..i + 1][..i] == buckets[..i];
        assert rows == TallyAll(old(rows), buckets[..i + 1], recordedUrl.size, IsRevisit(records[0]));
        if saved.Fail? {
          assert k == i;
          return saved;
        }
        assert i < k;
        i := i + 1;
      }
      assert buckets[..i] == buckets;
      assert k == |buckets|;
      return Pass;
    }
  }
}
