/** What a transaction assembler means, without buffers, counters or spilling.

    An open transaction is just the list of events it counted and the list of records it
    covers; everything src/cdc_flight/assembler.py keeps beside them (totals, per-table
    tallies, ordinal sets, byte and LSN high-water marks, staged prefixes) is a function
    of those lists here.  `Assembler.TransactionAssembler` is proved to refine this. */
module AssemblerSpec {
  import opened Options
  import opened Records

  datatype Config = Config(
    chunkEvents: int,
    chunkBytes: int,
    incrementalEnabled: bool)

  datatype Txn = Txn(id: string, events: seq<Event>, records: seq<Record>)

  datatype Chunk = Chunk(
    schema: Option<string>,
    table: Option<string>,
    incremental: bool,
    events: seq<Event>,
    records: seq<Record>)

  datatype Open = Idle | InTxn(txn: Txn) | InChunk(chunk: Chunk)

  /** `snaps` is every snapshot record numbered so far, in numbering order. */
  datatype State = State(open: Open, deferred: seq<Record>, snaps: seq<Record>)

  const INITIAL := State(Idle, [], [])

  datatype Unit =
    | TxnUnit(id: string, events: seq<Event>, records: seq<Record>)
    | ChunkUnit(chunk: Chunk, tableDone: bool)
    | MessageUnit(rec: Record)
    | ControlUnit(rec: Record)

  datatype Error =
    | SnapshotInsideTransaction
    | BoundaryMalformed
    | BoundaryInsideTransaction
    | BeginInsideTransaction
    | NoTransactionId
    | NoOrdinal
    | OrdinalNotInteger
    | OrdinalNotPositive
    | TransactionIdChanged
    | OrdinalRepeated
    | EndOfAnotherTransaction
    | NoEventCount
    | EventCountNotInteger
    | EventCountDiffers
    | OrdinalsNotDense
    | CollectionsDiffer
    | MessageInsideTransaction
    | IncrementalRefused

  type Checked<+T> = Result<T, Error>

  /** What one call returns: the state it leaves and the units it emits. */
  type Fed = Checked<(State, seq<Unit>)>

  /** `feed` takes an ordinary record, `feed_snapshot_boundary` the synthetic one. */
  datatype Input = Feed(rec: Record) | Boundary(rec: Record)

  // ---------------------------------------------------------------------------
  // Facts about a list of counted events
  // ---------------------------------------------------------------------------

  function Ordinals(events: seq<Event>): set<int> {
    set e | e in events :: e.ordinal
  }

  /** Row events observed for a named table. */
  function Tally(events: seq<Event>, table: string): nat {
    if events == [] then 0 else
      var last := events[|events| - 1].rec;
      Tally(events[..|events| - 1], table)
      + if IsRow(last) && TableKey(last) == table && table != "" then 1 else 0
  }

  function Messages(events: seq<Event>): nat {
    if events == [] then 0 else
      Messages(events[..|events| - 1]) + if IsRow(events[|events| - 1].rec) then 0 else 1
  }

  function Delivered(events: seq<Event>): nat {
    if events == [] then 0 else
      Delivered(events[..|events| - 1]) + if IsDeliveryData(events[|events| - 1].rec) then 1 else 0
  }

  function Refusals(events: seq<Event>): seq<string> {
    if events == [] then [] else
      var last := events[|events| - 1].rec;
      Refusals(events[..|events| - 1]) + if last.refusal.Some? then [last.refusal.value] else []
  }

  function Touched(events: seq<Event>): set<string> {
    set e | e in events && !e.rec.kind.Message? && TableKey(e.rec) != "" :: TableKey(e.rec)
  }

  function MaxLsn(events: seq<Event>): nat {
    if events == [] then 0 else
      Max(MaxLsn(events[..|events| - 1]), LsnOrZero(events[|events| - 1].rec))
  }

  /** The commit position of a transaction: END's own, or the highest event position
      when END carries none. */
  function CommitLsn(end: Record, events: seq<Event>): nat {
    if LsnOrZero(end) != 0 then LsnOrZero(end) else MaxLsn(events)
  }

  /** The greedy allowance walks END's declared collections in order; this is the sum of
      what it has charged for collections no row event was seen for. */
  function Unseen(events: seq<Event>, declared: seq<(string, int)>): int {
    if declared == [] then 0 else
      var last := declared[|declared| - 1];
      Unseen(events, declared[..|declared| - 1]) + if Tally(events, last.0) == 0 then last.1 else 0
  }

  /** One declared collection agrees: the observed count, or, for a collection with no
      row events, a charge the messages of the transaction can still cover. */
  predicate EntryAgrees(events: seq<Event>, declared: seq<(string, int)>, i: nat)
    requires i < |declared|
  {
    Tally(events, declared[i].0) == declared[i].1 ||
    (Tally(events, declared[i].0) == 0 && Unseen(events, declared[..i + 1]) <= Messages(events))
  }

  predicate Declares(declared: seq<(string, int)>, table: string) {
    exists i :: 0 <= i < |declared| && declared[i].0 == table
  }

  /** Per-table agreement, in both directions. */
  predicate CollectionsAgree(events: seq<Event>, declared: seq<(string, int)>) {
    (forall i :: 0 <= i < |declared| ==> EntryAgrees(events, declared, i)) &&
    (forall e :: e in events && IsRow(e.rec) && TableKey(e.rec) != "" ==> Declares(declared, TableKey(e.rec)))
  }

  /** `set(range(1, n + 1))`. */
  function Range(n: nat): (r: set<int>)
    ensures forall i :: i in r <==> 1 <= i <= n
  {
    if n == 0 then {} else Range(n - 1) + {n}
  }

  predicate OrdinalsDense(events: seq<Event>) {
    Ordinals(events) == Range(|events|)
  }

  /** The boundary rule: why a transaction with these events is not whole at `end`. */
  function Incomplete(events: seq<Event>, end: Record): Option<Error> {
    if end.eventCount.Missing? then Some(NoEventCount)
    else if end.eventCount.NotInteger? then Some(EventCountNotInteger)
    else if end.eventCount.n != |events| then Some(EventCountDiffers)
    else if !OrdinalsDense(events) then Some(OrdinalsNotDense)
    else if !CollectionsAgree(events, end.collections) then Some(CollectionsDiffer)
    else None
  }

  // ---------------------------------------------------------------------------
  // The state machine
  // ---------------------------------------------------------------------------

  function Ordinal(rec: Record): Checked<int> {
    match rec.totalOrder
    case Missing => Err(NoOrdinal)
    case NotInteger => Err(OrdinalNotInteger)
    case Integer(n) => if n < 1 then Err(OrdinalNotPositive) else Ok(n)
  }

  /** Count one row event or transactional message in its transaction, opening the
      transaction implicitly when no BEGIN was seen. */
  function Admit(s: State, rec: Record): Fed
    requires !s.open.InChunk?
  {
    if rec.txnId.None? then Err(NoTransactionId) else
    var n :- Ordinal(rec);
    var txn := if s.open.InTxn? then s.open.txn else Txn(rec.txnId.value, [], []);
    if txn.id != rec.txnId.value then Err(TransactionIdChanged)
    else if n in Ordinals(txn.events) then Err(OrdinalRepeated)
    else Ok((s.(open := InTxn(Txn(txn.id, txn.events + [Event(rec, n)], txn.records + [rec]))), []))
  }

  function FeedBegin(s: State, rec: Record): Fed {
    if s.open.InTxn? then Err(BeginInsideTransaction)
    else if rec.txnId.None? then Err(NoTransactionId)
    else Ok((s.(open := InTxn(Txn(rec.txnId.value, [], [rec]))), []))
  }

  function FeedEnd(s: State, rec: Record): Fed
    requires !s.open.InChunk?
  {
    if s.open.Idle? then Ok((s, [ControlUnit(rec)])) else
    var txn := s.open.txn;
    if rec.txnId != Some(txn.id) then Err(EndOfAnotherTransaction)
    else match Incomplete(txn.events, rec)
      case Some(e) => Err(e)
      case None => Ok((s.(open := Idle), [TxnUnit(txn.id, txn.events, txn.records + [rec])]))
  }

  function FeedControl(s: State, rec: Record): Fed
    requires !s.open.InChunk?
  {
    if IsTransactionalMessage(rec) then Admit(s, rec)
    else if rec.kind.Message? then
      if s.open.InTxn? then Err(MessageInsideTransaction) else Ok((s, [MessageUnit(rec)]))
    else if s.open.InTxn? then
      Ok((s.(open := InTxn(s.open.txn.(records := s.open.txn.records + [rec]))), []))
    else Ok((s, [ControlUnit(rec)]))
  }

  function CloseChunk(open: Open, tableDone: bool): seq<Unit> {
    if open.InChunk? then [ChunkUnit(open.chunk, tableDone)] else []
  }

  function WithoutChunk(open: Open): Open {
    if open.InChunk? then Idle else open
  }

  /** How many of `snaps` belong to the table `key`. */
  function Seen(snaps: seq<Record>, key: string): nat {
    if snaps == [] then 0 else
      Seen(snaps[..|snaps| - 1], key) + if TableKey(snaps[|snaps| - 1]) == key then 1 else 0
  }

  predicate SameRelation(chunk: Chunk, rec: Record) {
    chunk.schema == rec.schema && chunk.table == rec.table
  }

  predicate Continues(open: Open, rec: Record) {
    open.InChunk? && SameRelation(open.chunk, rec) &&
    open.chunk.incremental == rec.snapshot.Incremental?
  }

  /** What a snapshot record closes before it joins a chunk: a chunk of another relation,
      now complete, or one of the other mode. */
  function Displaced(open: Open, rec: Record): seq<Unit> {
    if Continues(open, rec) then []
    else CloseChunk(open, open.InChunk? && !SameRelation(open.chunk, rec))
  }

  /** The chunk a snapshot record joins: the open one, or a new one of its relation and mode. */
  function Grown(s: State, rec: Record): Chunk {
    var chunk := if Continues(s.open, rec) then s.open.chunk
                 else Chunk(rec.schema, rec.table, rec.snapshot.Incremental?, [], []);
    chunk.(events := chunk.events + [Event(rec, Seen(s.snaps, TableKey(rec)) + 1)],
           records := chunk.records + [rec])
  }

  predicate Full(cfg: Config, chunk: Chunk) {
    |chunk.events| >= cfg.chunkEvents || SumBytes(chunk.records) >= cfg.chunkBytes
  }

  function FeedSnapshot(cfg: Config, s: State, rec: Record): Fed
    requires !s.open.InTxn?
  {
    if rec.snapshot.Incremental? && !cfg.incrementalEnabled then Err(IncrementalRefused) else
    var closed := Displaced(s.open, rec);
    var chunk := Grown(s, rec);
    var snaps := s.snaps + [rec];
    if TableLast(rec) || Full(cfg, chunk)
    then Ok((State(Idle, s.deferred, snaps), closed + [ChunkUnit(chunk, TableLast(rec))]))
    else Ok((State(InChunk(chunk), s.deferred, snaps), closed))
  }

  /** Release deferred incremental reads in arrival order. */
  function Flush(cfg: Config, s: State, queue: seq<Record>): Fed
    requires !s.open.InTxn?
    ensures Flush(cfg, s, queue).Ok? ==> !Flush(cfg, s, queue).value.0.open.InTxn?
    decreases |queue|
  {
    if queue == [] then Ok((s, [])) else
    var (s1, u1) :- FeedSnapshot(cfg, s, queue[0]);
    var (s2, u2) :- Flush(cfg, s1, queue[1..]);
    Ok((s2, u1 + u2))
  }

  /** A non-snapshot record, once any open chunk is closed. */
  function FeedStream(s: State, rec: Record): Fed
    requires !s.open.InChunk?
  {
    match rec.kind
    case TxnBegin => FeedBegin(s, rec)
    case TxnEnd => FeedEnd(s, rec)
    case Data | Truncate => Admit(s, rec)
    case _ => FeedControl(s, rec)
  }

  function FeedRecord(cfg: Config, s: State, rec: Record): Fed {
    if rec.kind.Snapshot? then
      if s.open.InTxn? then
        if rec.snapshot.Incremental? && cfg.incrementalEnabled
        then Ok((s.(deferred := s.deferred + [rec]), []))
        else Err(SnapshotInsideTransaction)
      else FeedSnapshot(cfg, s, rec)
    else
      var (s1, u1) :- FeedStream(s.(open := WithoutChunk(s.open)), rec);
      if s1.open.InTxn? then Ok((s1, CloseChunk(s.open, true) + u1)) else
      var (s2, u2) :- Flush(cfg, s1.(deferred := []), s1.deferred);
      Ok((s2, CloseChunk(s.open, true) + u1 + u2))
  }

  function FeedBoundary(s: State, rec: Record): Fed {
    if !rec.kind.SnapshotBoundary? || rec.acknowledgeable then Err(BoundaryMalformed)
    else if s.open.InTxn? then Err(BoundaryInsideTransaction)
    else Ok((s.(open := Idle), CloseChunk(s.open, true) + [ControlUnit(rec)]))
  }

  function Step(cfg: Config, s: State, input: Input): Fed {
    match input
    case Feed(rec) => FeedRecord(cfg, s, rec)
    case Boundary(rec) => FeedBoundary(s, rec)
  }

  // ---------------------------------------------------------------------------
  // Whole runs
  // ---------------------------------------------------------------------------

  /** Everything a run emitted, and the state it is in or the error that ended it. */
  datatype Outcome = Outcome(units: seq<Unit>, last: Checked<State>)

  function Run(cfg: Config, s: State, inputs: seq<Input>): Outcome
    decreases |inputs|
  {
    if inputs == [] then Outcome([], Ok(s)) else
      match Step(cfg, s, inputs[0])
      case Err(e) => Outcome([], Err(e))
      case Ok((s1, u1)) =>
        var rest := Run(cfg, s1, inputs[1..]);
        Outcome(u1 + rest.units, rest.last)
  }

  function RecordsOf(u: Unit): seq<Record> {
    match u
    case TxnUnit(_, _, records) => records
    case ChunkUnit(chunk, _) => chunk.records
    case MessageUnit(rec) => [rec]
    case ControlUnit(rec) => [rec]
  }

  function Covered(units: seq<Unit>): seq<Record> {
    if units == [] then [] else RecordsOf(units[0]) + Covered(units[1..])
  }

  function OpenRecords(open: Open): seq<Record> {
    match open
    case Idle => []
    case InTxn(txn) => txn.records
    case InChunk(chunk) => chunk.records
  }

  /** The counted events of the unit still open. */
  function OpenEvents(open: Open): seq<Event> {
    match open
    case Idle => []
    case InTxn(txn) => txn.events
    case InChunk(chunk) => chunk.events
  }
}
