/**
 * The data the postfetch pipeline consumes but does not own: a recorded
 * transaction, the WARC records the writer produced for it, and the
 * exceptions a stage can see.
 */
module Records {
  import opened Wrappers

  /** The WARC-Type token of a revisit record (`warctools.WarcRecord.REVISIT`). */
  const REVISIT: string := "revisit"

  /** A WARC record, as far as this core looks at it: its WARC-Type header, if present. */
  datatype WarcRecord = WarcRecord(warcType: Option<string>)

  predicate IsRevisit(record: WarcRecord) {
    record.warcType == Some(REVISIT)
  }

  /** The `stats` entry of the Warcprox-Meta mapping; `buckets` is absent when the key is missing. */
  datatype StatsMeta = StatsMeta(buckets: Option<seq<string>>)

  /**
   * The Warcprox-Meta mapping of a request. An empty mapping (falsy in
   * Python) behaves like one without a `stats` key.
   */
  datatype WarcproxMeta = WarcproxMeta(stats: Option<StatsMeta>)

  /** A fetched and recorded transaction. */
  datatype RecordedUrl = RecordedUrl(
    url: string,
    size: nat,
    warcproxMeta: Option<WarcproxMeta>,
    warcRecords: seq<WarcRecord>)

  /** The report of an upsert into the replicated store: its six counters (`unchanged` is a Dafny keyword, hence `unchanged_`). */
  datatype UpsertResult = UpsertResult(
    deleted: nat, errors: nat, inserted: nat, replaced: nat, skipped: nat, unchanged_: nat)

  /** The exceptions this core raises, catches or classifies. */
  datatype Error =
    | OSError(errno: int)
    | IndexError
    | KeyError(key: string)
    | TypeError
    | NameError(name: string)
    | UnexpectedUpsertResult(result: UpsertResult)
    | OtherError(description: string)
}
