/** Decoded change records, as src/cdc_flight/envelope.py delivers them to the
    transaction assembler. */
module Records {
  import opened Options

  datatype Kind =
    | Data
    | Truncate
    | TxnBegin
    | TxnEnd
    | Heartbeat
    | Message
    | SchemaChange
    | Snapshot
    | SnapshotBoundary
    | Unknown

  /** `source.snapshot`. */
  datatype SnapshotTag =
    | NotSnapshot
    | Ongoing
    | First
    | FirstInCollection
    | LastInCollection
    | Last
    | Incremental

  /** A number a marker declares: absent, unparsable, or an integer. */
  datatype Declared = Missing | NotInteger | Integer(n: int)

  datatype Record = Record(
    kind: Kind,
    nbytes: nat,
    schema: Option<string>,
    table: Option<string>,
    lsn: Option<nat>,
    txnId: Option<string>,
    totalOrder: Declared,
    snapshot: SnapshotTag,
    eventCount: Declared,
    collections: seq<(string, int)>,
    transactional: Option<bool>,
    ignored: bool,
    refusal: Option<string>,
    acknowledgeable: bool,
    policyEpoch: int,
    policyDigest: string)

  /** A counted record with the ordinal that identifies it: `transaction.total_order`
      for a streaming event, the arrival ordinal of its table for a snapshot row. */
  datatype Event = Event(rec: Record, ordinal: int)

  function Qualified(rec: Record): Option<string> {
    if Present(rec.schema) && Present(rec.table)
    then Some(rec.schema.value + "." + rec.table.value)
    else rec.table
  }

  /** The key of a record in a per-table dictionary; the empty string when it names no table. */
  function TableKey(rec: Record): string {
    if Qualified(rec).Some? then Qualified(rec).value else ""
  }

  function LsnOrZero(rec: Record): nat {
    if rec.lsn.Some? then rec.lsn.value else 0
  }

  predicate IsRow(rec: Record) {
    rec.kind.Data? || rec.kind.Truncate?
  }

  predicate IsDeliveryData(rec: Record) {
    (IsRow(rec) || rec.kind.Snapshot?) && !rec.ignored
  }

  /** A message is transactional when it says so, or, saying nothing, when it carries
      transaction facts. */
  predicate IsTransactionalMessage(rec: Record) {
    rec.kind.Message? &&
    match rec.transactional
    case Some(b) => b
    case None => rec.txnId.Some? || !rec.totalOrder.Missing?
  }

  predicate TableLast(rec: Record) {
    rec.snapshot.LastInCollection? || rec.snapshot.Last?
  }

  function Max(a: nat, b: nat): nat {
    if a < b then b else a
  }

  function SumBytes(recs: seq<Record>): nat {
    if recs == [] then 0 else SumBytes(recs[..|recs| - 1]) + recs[|recs| - 1].nbytes
  }
}
