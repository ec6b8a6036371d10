/** The transaction assembler as it runs: one open unit updated record by record, counters
    maintained on arrival, payloads staged to a spill table past a threshold, and only the
    most recent record retained for acknowledgement.  Every operation is proved against
    `AssemblerSpec`, which has none of that, so neither the thresholds, nor what the spill
    callback chooses to take, nor retention can change what a stream means. */
module Assembler {
  import opened Options
  import opened Records
  import opened Spec = AssemblerSpec

  /** A materializable event as it is held or staged; END stamps the commit position on
      the rows that are still in memory. */
  datatype Row = Row(event: Event, commitLsn: Option<nat>)

  datatype UnitKind = WholeTxn | SnapshotChunk | Control | LogicalMessage

  datatype CompleteUnit = CompleteUnit(
    kind: UnitKind,
    rows: seq<Row>,
    records: seq<Record>,
    txnId: Option<string>,
    lastLsn: nat,
    commitLsn: Option<nat>,
    nbytes: nat,
    schema: Option<string>,
    table: Option<string>,
    touched: set<string>,
    lastForTable: bool,
    snapshotLast: bool,
    spilledEvents: nat,
    spillSeq: Option<nat>,
    discardedEvents: int,
    deliveryEvents: Option<nat>,
    incremental: bool,
    refusals: seq<string>)

  /** Rows staged by the spill callback, by unit sequence number. */
  type Staged = map<nat, seq<Row>>

  function RowsAt(spillSeq: Option<nat>, staged: Staged): seq<Row> {
    if spillSeq.Some? && spillSeq.value in staged then staged[spillSeq.value] else []
  }

  function Plain(rows: seq<Row>): (events: seq<Event>)
    ensures |events| == |rows| && forall i :: 0 <= i < |rows| ==> events[i] == rows[i].event
  {
    seq(|rows|, i requires 0 <= i < |rows| => rows[i].event)
  }

  function Stamp(rows: seq<Row>, commitLsn: nat): (stamped: seq<Row>)
    ensures |stamped| == |rows|
    ensures forall i :: 0 <= i < |rows| ==> stamped[i] == Row(rows[i].event, Some(commitLsn))
  {
    seq(|rows|, i requires 0 <= i < |rows| => Row(rows[i].event, Some(commitLsn)))
  }

  predicate AllStamped(rows: seq<Row>, commitLsn: Option<nat>) {
    forall r :: r in rows ==> r.commitLsn == commitLsn
  }

  /** The acknowledgement list of a unit that covers `covered`. */
  function Retained(keepAll: bool, covered: seq<Record>): seq<Record> {
    if keepAll || covered == [] then covered else [covered[|covered| - 1]]
  }

  ghost predicate SawLast(events: seq<Event>) {
    exists e :: e in events && e.rec.snapshot.Last?
  }

  // ---------------------------------------------------------------------------
  // The parts of an open unit
  // ---------------------------------------------------------------------------

  /** `keep_all_records` and `discard_streaming`. */
  datatype Policy = Policy(keepAll: bool, discard: bool)

  /** What is still in memory, and how much went to the spill table under which number. */
  datatype Buffer = Buffer(rows: seq<Row>, memBytes: nat, spilled: nat, spillSeq: Option<nat>)

  const EMPTY_BUFFER := Buffer([], 0, 0, None)

  function Buffered(b: Buffer, rec: Record, n: int): Buffer {
    b.(rows := b.rows + [Row(Event(rec, n), None)], memBytes := b.memBytes + rec.nbytes)
  }

  /** Totals every unit keeps on arrival, and its acknowledgement list. */
  datatype Totals = Totals(
    count: nat,
    delivery: nat,
    touched: set<string>,
    refusals: seq<string>,
    nbytes: nat,
    records: seq<Record>)

  const NO_TOTALS := Totals(0, 0, {}, [], 0, [])

  function Counted(t: Totals, rec: Record): Totals {
    t.(count := t.count + 1,
       delivery := t.delivery + if IsDeliveryData(rec) then 1 else 0,
       touched := t.touched + if !rec.kind.Message? && TableKey(rec) != "" then {TableKey(rec)} else {},
       refusals := t.refusals + if rec.refusal.Some? then [rec.refusal.value] else [])
  }

  function Covering(t: Totals, rec: Record, keepAll: bool): Totals {
    t.(nbytes := t.nbytes + rec.nbytes, records := if keepAll then t.records + [rec] else [rec])
  }

  /** What a transaction is proven whole with. */
  datatype Proof = Proof(orders: set<int>, perTable: map<string, nat>, messages: nat, lastLsn: nat)

  const NO_PROOF := Proof({}, map[], 0, 0)

  function Proven(p: Proof, rec: Record, n: int): Proof {
    Proof(p.orders + {n},
          if IsRow(rec) then Bumped(p.perTable, TableKey(rec)) else p.perTable,
          p.messages + if IsRow(rec) then 0 else 1,
          Max(p.lastLsn, LsnOrZero(rec)))
  }

  function Bumped(perTable: map<string, nat>, t: string): map<string, nat> {
    if t == "" then perTable else perTable[t := (if t in perTable then perTable[t] else 0) + 1]
  }

  // ---------------------------------------------------------------------------
  // What they stand for
  // ---------------------------------------------------------------------------

  /** The counted events are those staged under the unit's own sequence number, then
      those in memory, in arrival order; a discard-only stream keeps the count alone. */
  ghost predicate Holds(discard: bool, events: seq<Event>, rows: seq<Row>, spilled: nat, spillSeq: Option<nat>, staged: Staged) {
    var prefix := RowsAt(spillSeq, staged);
    spilled == |prefix| && AllStamped(prefix, None) &&
    if discard then rows == [] && prefix == [] else Plain(prefix) + Plain(rows) == events
  }

  ghost predicate BufferHolds(b: Buffer, discard: bool, events: seq<Event>, staged: Staged) {
    Holds(discard, events, b.rows, b.spilled, b.spillSeq, staged) && AllStamped(b.rows, None) && b.memBytes == RowBytes(b.rows)
  }

  function RowBytes(rows: seq<Row>): nat {
    if rows == [] then 0 else RowBytes(rows[..|rows| - 1]) + rows[|rows| - 1].event.rec.nbytes
  }

  lemma RowBytesMore(rows: seq<Row>, r: Row)
    ensures RowBytes(rows + [r]) == RowBytes(rows) + r.event.rec.nbytes
  {
    assert (rows + [r])[..|rows|] == rows;
  }

  ghost predicate Totalled(t: Totals, keepAll: bool, events: seq<Event>, covered: seq<Record>) {
    t.count == |events| &&
    t.delivery == Delivered(events) &&
    t.touched == Touched(events) &&
    t.refusals == Refusals(events) &&
    t.nbytes == SumBytes(covered) &&
    t.records == Retained(keepAll, covered)
  }

  /** `per_table` holds exactly the tables with a positive tally. */
  ghost predicate Tallied(perTable: map<string, nat>, events: seq<Event>) {
    (forall t :: t in perTable <==> Tally(events, t) > 0) &&
    (forall t :: t in perTable ==> perTable[t] == Tally(events, t))
  }

  ghost predicate Proves(p: Proof, events: seq<Event>) {
    p.orders == Ordinals(events) && Tallied(p.perTable, events) &&
    p.messages == Messages(events) && p.lastLsn == MaxLsn(events)
  }

  ghost predicate UnitTotalled(u: CompleteUnit, keepAll: bool, events: seq<Event>, covered: seq<Record>) {
    u.records == Retained(keepAll, covered) &&
    u.nbytes == SumBytes(covered) &&
    u.touched == Touched(events) &&
    u.deliveryEvents == Some(Delivered(events)) &&
    u.refusals == Refusals(events)
  }

  ghost predicate Represents(u: CompleteUnit, whole: Unit, p: Policy, staged: Staged) {
    match whole
    case TxnUnit(id, events, records) =>
      records != [] &&
      var commit := CommitLsn(records[|records| - 1], events);
      u.kind == WholeTxn && u.txnId == Some(id) && Unsited(u) && UnitTotalled(u, p.keepAll, events, records) &&
      Holds(p.discard, events, u.rows, u.spilledEvents, u.spillSeq, staged) &&
      u.discardedEvents == (if p.discard then |events| else 0) &&
      u.commitLsn == Some(commit) && AllStamped(u.rows, Some(commit)) &&
      u.lastLsn == Max(commit, MaxLsn(Plain(u.rows)))
    case ChunkUnit(chunk, tableDone) =>
      u.kind == SnapshotChunk && u.txnId == None && u.commitLsn == None && UnitTotalled(u, p.keepAll, chunk.events, chunk.records) &&
      Holds(false, chunk.events, u.rows, u.spilledEvents, u.spillSeq, staged) &&
      u.schema == chunk.schema && u.table == chunk.table && u.incremental == chunk.incremental &&
      u.lastForTable == (tableDone && !chunk.incremental) &&
      u.snapshotLast == SawLast(chunk.events) &&
      u.discardedEvents == 0 && u.lastLsn == MaxLsn(Plain(u.rows))
    case MessageUnit(rec) =>
      u.kind == LogicalMessage && Single(u, rec) && Plain(u.rows) == [Event(rec, 0)] && u.txnId == None &&
      u.deliveryEvents == Some(0)
    case ControlUnit(rec) =>
      u.kind == Control && Single(u, rec) && u.rows == [] && u.txnId == rec.txnId && u.deliveryEvents == None
  }

  ghost predicate Unsited(u: CompleteUnit) {
    u.schema == None && u.table == None && !u.lastForTable && !u.snapshotLast && !u.incremental
  }

  ghost predicate Single(u: CompleteUnit, rec: Record) {
    Unsited(u) && u.touched == {} && u.records == [rec] && u.nbytes == rec.nbytes && u.commitLsn == rec.lsn && u.lastLsn == LsnOrZero(rec) &&
    u.spilledEvents == 0 && u.spillSeq == None && u.discardedEvents == 0 &&
    u.refusals == if rec.refusal.Some? then [rec.refusal.value] else []
  }

  ghost predicate AllRepresent(units: seq<CompleteUnit>, wholes: seq<Unit>, p: Policy, staged: Staged) {
    |units| == |wholes| && forall i :: 0 <= i < |units| ==> Represents(units[i], wholes[i], p, staged)
  }

  /** The spill sequence numbers of `units` increase strictly from above `lo` up to `hi`. */
  ghost predicate Sequenced(units: seq<CompleteUnit>, lo: nat, hi: nat) {
    (forall u :: u in units && u.spillSeq.Some? ==> lo < u.spillSeq.value <= hi) && Increasing(units)
  }

  ghost predicate Increasing(units: seq<CompleteUnit>) {
    forall i, j :: 0 <= i < j < |units| && units[i].spillSeq.Some? && units[j].spillSeq.Some?
      ==> units[i].spillSeq.value < units[j].spillSeq.value
  }

  /** Nothing staged under a sequence number up to `upTo` changed. */
  ghost predicate Undisturbed(before: Staged, after: Staged, upTo: nat) {
    forall q: nat :: q <= upTo ==> RowsAt(Some(q), before) == RowsAt(Some(q), after)
  }

  ghost predicate StagedUpTo(staged: Staged, hi: nat) {
    forall q :: q in staged ==> q <= hi
  }

  /** `_snapshot_ordinals` counts the snapshot records of each table. */
  ghost predicate Numbers(ordinals: map<string, nat>, snaps: seq<Record>) {
    forall k :: (if k in ordinals then ordinals[k] else 0) == Seen(snaps, k)
  }

  lemma StillRepresents(units: seq<CompleteUnit>, wholes: seq<Unit>, p: Policy, before: Staged, after: Staged, lo: nat, hi: nat)
    requires AllRepresent(units, wholes, p, before) && Sequenced(units, lo, hi) && Undisturbed(before, after, hi)
    ensures AllRepresent(units, wholes, p, after)
  {
    forall i | 0 <= i < |units|
      ensures Represents(units[i], wholes[i], p, after)
    {
      assert units[i] in units;
      assert RowsAt(units[i].spillSeq, before) == RowsAt(units[i].spillSeq, after);
    }
  }

  lemma RepresentJoined(a: seq<CompleteUnit>, wa: seq<Unit>, b: seq<CompleteUnit>, wb: seq<Unit>, p: Policy, staged: Staged)
    requires AllRepresent(a, wa, p, staged) && AllRepresent(b, wb, p, staged)
    ensures AllRepresent(a + b, wa + wb, p, staged)
  {
    forall i | 0 <= i < |a + b|
      ensures Represents((a + b)[i], (wa + wb)[i], p, staged)
    {
      if i < |a| {
        assert (a + b)[i] == a[i] && (wa + wb)[i] == wa[i];
      } else {
        assert (a + b)[i] == b[i - |a|] && (wa + wb)[i] == wb[i - |a|];
      }
    }
  }

  lemma SequencedJoined(a: seq<CompleteUnit>, b: seq<CompleteUnit>, lo: nat, mid: nat, hi: nat)
    requires Sequenced(a, lo, mid) && Sequenced(b, mid, hi) && lo <= mid <= hi
    ensures Sequenced(a + b, lo, hi)
  {
    assert forall i :: 0 <= i < |a| ==> (a + b)[i] in a;
    assert forall i :: |a| <= i < |a + b| ==> (a + b)[i] in b;
  }

  /** Two consecutive calls: the second stages only under numbers the first did not use. */
  lemma Joined(a: seq<CompleteUnit>, wa: seq<Unit>, b: seq<CompleteUnit>, wb: seq<Unit>,
               p: Policy, before: Staged, after: Staged, lo: nat, mid: nat, hi: nat)
    requires AllRepresent(a, wa, p, before) && Sequenced(a, lo, mid) && Undisturbed(before, after, mid)
    requires AllRepresent(b, wb, p, after) && Sequenced(b, mid, hi) && lo <= mid <= hi
    ensures AllRepresent(a + b, wa + wb, p, after) && Sequenced(a + b, lo, hi)
  {
    StillRepresents(a, wa, p, before, after, lo, mid);
    RepresentJoined(a, wa, b, wb, p, after);
    SequencedJoined(a, b, lo, mid, hi);
  }

  lemma UndisturbedBelow(before: Staged, after: Staged, lo: nat, hi: nat)
    requires Undisturbed(before, after, hi) && lo <= hi
    ensures Undisturbed(before, after, lo)
  {
  }

  lemma UndisturbedTwice(a: Staged, b: Staged, c: Staged, lo: nat, hi: nat)
    requires Undisturbed(a, b, lo) && Undisturbed(b, c, hi) && lo <= hi
    ensures Undisturbed(a, c, lo)
  {
  }

  lemma SameStaging(staged: Staged, hi: nat)
    ensures Undisturbed(staged, staged, hi)
  {
  }

  lemma OneUnit(u: CompleteUnit, whole: Unit, p: Policy, staged: Staged, lo: nat, hi: nat)
    requires Represents(u, whole, p, staged) && (u.spillSeq.Some? ==> lo < u.spillSeq.value <= hi)
    ensures AllRepresent([u], [whole], p, staged) && Sequenced([u], lo, hi)
  {
  }

  // ---------------------------------------------------------------------------
  // Facts the counters rely on
  // ---------------------------------------------------------------------------

  lemma CountOne(events: seq<Event>, e: Event)
    ensures Ordinals(events + [e]) == Ordinals(events) + {e.ordinal}
    ensures Messages(events + [e]) == Messages(events) + if IsRow(e.rec) then 0 else 1
    ensures Delivered(events + [e]) == Delivered(events) + if IsDeliveryData(e.rec) then 1 else 0
    ensures Refusals(events + [e]) == Refusals(events) + if e.rec.refusal.Some? then [e.rec.refusal.value] else []
    ensures MaxLsn(events + [e]) == Max(MaxLsn(events), LsnOrZero(e.rec))
    ensures Touched(events + [e])
         == Touched(events) + if !e.rec.kind.Message? && TableKey(e.rec) != "" then {TableKey(e.rec)} else {}
  {
    assert (events + [e])[..|events|] == events;
  }

  lemma TallyOne(events: seq<Event>, e: Event, t: string)
    ensures Tally(events + [e], t)
         == Tally(events, t) + if IsRow(e.rec) && TableKey(e.rec) == t && t != "" then 1 else 0
  {
    assert (events + [e])[..|events|] == events;
  }

  lemma {:induction false} TallyPositive(events: seq<Event>, t: string)
    ensures Tally(events, t) > 0 <==> t != "" && exists e :: e in events && IsRow(e.rec) && TableKey(e.rec) == t
  {
    if events != [] {
      var front, last := events[..|events| - 1], events[|events| - 1];
      TallyPositive(front, t);
      assert events == front + [last];
      assert last in events;
    }
  }

  lemma TalliedGrows(perTable: map<string, nat>, events: seq<Event>, e: Event)
    requires Tallied(perTable, events)
    ensures Tallied(if IsRow(e.rec) then Bumped(perTable, TableKey(e.rec)) else perTable, events + [e])
  {
    forall t: string
      ensures Tally(events + [e], t) == Tally(events, t) + if IsRow(e.rec) && TableKey(e.rec) == t && t != "" then 1 else 0
    {
      TallyOne(events, e, t);
    }
  }

  /** Counting a record keeps totals and proof in step with the events. */
  lemma CountingKeeps(t: Totals, p: Proof, keepAll: bool, events: seq<Event>, covered: seq<Record>, rec: Record, n: int)
    requires Totalled(t, keepAll, events, covered)
    ensures Totalled(Counted(t, rec), keepAll, events + [Event(rec, n)], covered)
    ensures Proves(p, events) ==> Proves(Proven(p, rec, n), events + [Event(rec, n)])
  {
    CountOne(events, Event(rec, n));
    if Proves(p, events) {
      TalliedGrows(p.perTable, events, Event(rec, n));
    }
  }

  lemma CoveringKeeps(t: Totals, keepAll: bool, events: seq<Event>, covered: seq<Record>, rec: Record)
    requires Totalled(t, keepAll, events, covered)
    ensures Totalled(Covering(t, rec, keepAll), keepAll, events, covered + [rec])
  {
    assert (covered + [rec])[..|covered|] == covered;
  }

  lemma BufferingHolds(b: Buffer, events: seq<Event>, staged: Staged, rec: Record, n: int)
    requires BufferHolds(b, false, events, staged)
    ensures BufferHolds(Buffered(b, rec, n), false, events + [Event(rec, n)], staged)
  {
    RowBytesMore(b.rows, Row(Event(rec, n), None));
    hide RowBytes, RowsAt;
    var row := Row(Event(rec, n), None);
    assert Plain(b.rows + [row]) == Plain(b.rows) + [Event(rec, n)];
    var prefix := Plain(RowsAt(b.spillSeq, staged));
    assert prefix + (Plain(b.rows) + [Event(rec, n)]) == (prefix + Plain(b.rows)) + [Event(rec, n)];
  }

  lemma NothingHeldBack(b: Buffer, events: seq<Event>, staged: Staged)
    requires BufferHolds(b, true, events, staged)
    ensures |b.rows| == 0 && RowBytes(b.rows) == 0
  {
  }

  lemma DiscardingHolds(b: Buffer, events: seq<Event>, more: seq<Event>, staged: Staged)
    requires BufferHolds(b, true, events, staged)
    ensures BufferHolds(b, true, more, staged)
  {
  }

  /** Staging the in-memory rows under the unit's own number keeps the events it holds. */
  lemma StagingHolds(b: Buffer, q: nat, events: seq<Event>, staged: Staged)
    requires BufferHolds(b, false, events, staged) && b.spillSeq == Some(q)
    ensures var after := staged[q := RowsAt(Some(q), staged) + b.rows];
      BufferHolds(Buffer([], 0, b.spilled + |b.rows|, Some(q)), false, events, after) &&
      forall lo: nat :: lo < q ==> Undisturbed(staged, after, lo)
  {
    var prefix := RowsAt(Some(q), staged);
    assert Plain(prefix + b.rows) == Plain(prefix) + Plain(b.rows);
    assert Plain(prefix + b.rows) + Plain([]) == Plain(prefix + b.rows);
  }

  lemma SawLastOne(events: seq<Event>, e: Event)
    ensures SawLast(events + [e]) == (SawLast(events) || e.rec.snapshot.Last?)
  {
    assert e in events + [e];
  }

  // ---------------------------------------------------------------------------
  // Open units
  // ---------------------------------------------------------------------------

  class OpenTxn {
    const id: string
    const beginSeen: bool
    var totals: Totals
    var proof: Proof
    var buffer: Buffer
    ghost var events: seq<Event>
    ghost var covered: seq<Record>

    constructor (id: string, beginSeen: bool)
      ensures this.id == id && this.beginSeen == beginSeen
      ensures totals == NO_TOTALS && proof == NO_PROOF && buffer == EMPTY_BUFFER
      ensures events == [] && covered == []
    {
      this.id, this.beginSeen := id, beginSeen;
      totals, proof, buffer := NO_TOTALS, NO_PROOF, EMPTY_BUFFER;
      events, covered := [], [];
    }

    ghost predicate Valid(p: Policy, staged: Staged)
      reads this
    {
      Totalled(totals, p.keepAll, events, covered) && Proves(proof, events) &&
      BufferHolds(buffer, p.discard, events, staged)
    }

    ghost function Abs(): Txn
      reads this
    {
      Txn(id, events, covered)
    }

    /** Cover a record without counting it. */
    method Cover(rec: Record, p: Policy, ghost staged: Staged)
      requires Valid(p, staged)
      modifies this`totals, this`covered
      ensures Valid(p, staged) && covered == old(covered) + [rec]
    {
      CoveringKeeps(totals, p.keepAll, events, covered, rec);
      totals := Covering(totals, rec, p.keepAll);
      covered := covered + [rec];
    }

    /** Count and cover one row event or message; its payload is kept unless discarded. */
    method Count(rec: Record, n: int, p: Policy, ghost staged: Staged)
      requires Valid(p, staged)
      modifies this`totals, this`proof, this`buffer, this`events, this`covered
      ensures Valid(p, staged) && events == old(events) + [Event(rec, n)] && covered == old(covered) + [rec]
      ensures buffer.spillSeq == old(buffer.spillSeq)
    {
      hide Totalled, Proves, Holds, AllStamped;
      CountingKeeps(totals, proof, p.keepAll, events, covered, rec, n);
      CoveringKeeps(Counted(totals, rec), p.keepAll, events + [Event(rec, n)], covered, rec);
      totals := Covering(Counted(totals, rec), rec, p.keepAll);
      proof := Proven(proof, rec, n);
      if !p.discard {
        BufferingHolds(buffer, events, staged, rec, n);
        buffer := Buffered(buffer, rec, n);
      } else {
        DiscardingHolds(buffer, events, events + [Event(rec, n)], staged);
      }
      events, covered := events + [Event(rec, n)], covered + [rec];
    }
  }

  class OpenChunk {
    const schema: Option<string>
    const table: Option<string>
    const incremental: bool
    var totals: Totals
    var buffer: Buffer
    var sawLast: bool
    ghost var events: seq<Event>
    ghost var covered: seq<Record>

    constructor (schema: Option<string>, table: Option<string>, incremental: bool)
      ensures this.schema == schema && this.table == table && this.incremental == incremental
      ensures totals == NO_TOTALS && buffer == EMPTY_BUFFER && !sawLast
      ensures events == [] && covered == []
    {
      this.schema, this.table, this.incremental := schema, table, incremental;
      totals, buffer, sawLast := NO_TOTALS, EMPTY_BUFFER, false;
      events, covered := [], [];
    }

    ghost predicate Valid(p: Policy, staged: Staged)
      reads this
    {
      Totalled(totals, p.keepAll, events, covered) && sawLast == SawLast(events) &&
      BufferHolds(buffer, false, events, staged)
    }

    ghost function Abs(): Chunk
      reads this
    {
      Chunk(schema, table, incremental, events, covered)
    }

    /** One more snapshot row, numbered `n`. */
    method Add(rec: Record, n: int, p: Policy, ghost staged: Staged)
      requires Valid(p, staged)
      modifies this`totals, this`buffer, this`sawLast, this`events, this`covered
      ensures Valid(p, staged) && events == old(events) + [Event(rec, n)] && covered == old(covered) + [rec]
      ensures buffer.spillSeq == old(buffer.spillSeq)
    {
      hide Totalled, Proves, Holds, AllStamped;
      CountingKeeps(totals, NO_PROOF, p.keepAll, events, covered, rec, n);
      CoveringKeeps(Counted(totals, rec), p.keepAll, events + [Event(rec, n)], covered, rec);
      BufferingHolds(buffer, events, staged, rec, n);
      SawLastOne(events, Event(rec, n));
      totals := Covering(Counted(totals, rec), rec, p.keepAll);
      buffer := Buffered(buffer, rec, n);
      if rec.snapshot.Last? { sawLast := true; }
      events, covered := events + [Event(rec, n)], covered + [rec];
    }
  }

  /** The unit an accepted END closes. */
  function EndUnit(id: string, t: Totals, p: Proof, b: Buffer, end: Record): CompleteUnit {
    var commit := if LsnOrZero(end) != 0 then LsnOrZero(end) else p.lastLsn;
    var rows := Stamp(b.rows, commit);
    CompleteUnit(WholeTxn, rows, t.records, Some(id), Max(commit, MaxLsn(Plain(rows))), Some(commit),
      t.nbytes, None, None, t.touched, false, false, b.spilled, b.spillSeq,
      t.count - |rows| - b.spilled, Some(t.delivery), false, t.refusals)
  }

  lemma EndRepresents(id: string, t: Totals, p: Proof, b: Buffer, end: Record, policy: Policy,
                      events: seq<Event>, covered: seq<Record>, staged: Staged)
    requires covered != [] && covered[|covered| - 1] == end
    requires Totalled(t, policy.keepAll, events, covered) && Proves(p, events)
    requires BufferHolds(b, policy.discard, events, staged)
    ensures Represents(EndUnit(id, t, p, b, end), TxnUnit(id, events, covered), policy, staged)
  {
    assert Plain(Stamp(b.rows, CommitLsn(end, events))) == Plain(b.rows);
  }

  /** The unit a closed chunk becomes. */
  function ClosedChunk(schema: Option<string>, table: Option<string>, incremental: bool, sawLast: bool,
                       t: Totals, b: Buffer, tableDone: bool): CompleteUnit
  {
    CompleteUnit(SnapshotChunk, b.rows, t.records, None, MaxLsn(Plain(b.rows)), None,
      t.nbytes, schema, table, t.touched, tableDone && !incremental, sawLast,
      b.spilled, b.spillSeq, 0, Some(t.delivery), incremental, t.refusals)
  }

  lemma ClosedRepresents(c: Chunk, sawLast: bool, t: Totals, b: Buffer, tableDone: bool, policy: Policy, staged: Staged)
    requires Totalled(t, policy.keepAll, c.events, c.records) && sawLast == SawLast(c.events)
    requires BufferHolds(b, false, c.events, staged)
    ensures Represents(ClosedChunk(c.schema, c.table, c.incremental, sawLast, t, b, tableDone),
                       ChunkUnit(c, tableDone), policy, staged)
  {
  }

  // ---------------------------------------------------------------------------
  // The assembler
  // ---------------------------------------------------------------------------

  /** Why a transaction with these counters is not whole at `rec`; the counters are never
      touched by spilling. */
  method VerifyComplete(count: nat, proof: Proof, rec: Record, ghost events: seq<Event>) returns (refusal: Option<Error>)
    requires count == |events| && Proves(proof, events)
    ensures refusal == Incomplete(events, rec)
  {
    if rec.eventCount.Missing? { return Some(NoEventCount); }
    if rec.eventCount.NotInteger? { return Some(EventCountNotInteger); }
    if rec.eventCount.n != count { return Some(EventCountDiffers); }
    if proof.orders != Range(count) { return Some(OrdinalsNotDense); }
    var declared := AllowanceCovers(proof, rec.collections, events);
    if !declared { return Some(CollectionsDiffer); }
    var known := EveryTableDeclared(proof, rec.collections, events);
    if !known { return Some(CollectionsDiffer); }
    return None;
  }

  /** The greedy walk over the declared collections. */
  method AllowanceCovers(proof: Proof, declared: seq<(string, int)>, ghost events: seq<Event>) returns (ok: bool)
    requires Proves(proof, events)
    ensures ok <==> forall i :: 0 <= i < |declared| ==> EntryAgrees(events, declared, i)
  {
    var allowance: int := proof.messages;
    for i := 0 to |declared|
      invariant allowance == proof.messages - Unseen(events, declared[..i])
      invariant forall j :: 0 <= j < i ==> EntryAgrees(events, declared, j)
    {
      var (table, n) := declared[i];
      var actual := if table in proof.perTable then proof.perTable[table] else 0;
      assert declared[..i + 1][..i] == declared[..i];
      if actual != n {
        if actual == 0 && n <= allowance {
          allowance := allowance - n;
        } else {
          assert !EntryAgrees(events, declared, i);
          return false;
        }
      }
    }
    assert declared[..|declared|] == declared;
    return true;
  }

  /** The other direction: no observed table the marker never declared. */
  method EveryTableDeclared(proof: Proof, declared: seq<(string, int)>, ghost events: seq<Event>) returns (ok: bool)
    requires Proves(proof, events)
    ensures ok <==> forall e :: e in events && IsRow(e.rec) && TableKey(e.rec) != "" ==> Declares(declared, TableKey(e.rec))
  {
    var tables := proof.perTable.Keys;
    while tables != {}
      invariant tables <= proof.perTable.Keys
      invariant forall t :: t in proof.perTable && t !in tables ==> Declares(declared, t)
    {
      var t :| t in tables;
      if !Declares(declared, t) {
        TallyPositive(events, t);
        return false;
      }
      tables := tables - {t};
    }
    forall e | e in events && IsRow(e.rec) && TableKey(e.rec) != ""
      ensures Declares(declared, TableKey(e.rec))
    {
      TallyPositive(events, TableKey(e.rec));
    }
    return true;
  }

  class TransactionAssembler {
    const cfg: Config
    const policy: Policy
    const spillEnabled: bool
    const spillEvents: int
    const spillBytes: int
    /** Whether the n-th spill callback takes the rows it is handed; it takes all or none. */
    const accepts: nat -> bool

    var txn: OpenTxn?
    var chunk: OpenChunk?
    var deferred: seq<Record>
    var spillUnitSeq: nat
    var ordinals: map<string, nat>
    var staged: Staged
    var spillCalls: nat
    var unitsEmitted: nat
    var discardedTail: nat
    var orphanEnds: nat
    var implicitOpens: nat
    ghost var snaps: seq<Record>
    /** The highest spill sequence number of a unit already closed. */
    ghost var closedSeq: nat

    constructor (cfg: Config, policy: Policy, spillEnabled: bool, spillEvents: int, spillBytes: int, accepts: nat -> bool)
      ensures Valid() && Abs() == INITIAL && this.cfg == cfg && this.policy == policy
      ensures txn == null && chunk == null && closedSeq == 0 && staged == map[]
    {
      this.cfg, this.policy, this.spillEnabled := cfg, policy, spillEnabled;
      this.spillEvents, this.spillBytes, this.accepts := spillEvents, spillBytes, accepts;
      txn, chunk, deferred, spillUnitSeq, ordinals, staged, spillCalls := null, null, [], 0, map[], map[], 0;
      unitsEmitted, discardedTail, orphanEnds, implicitOpens := 0, 0, 0, 0;
      snaps, closedSeq := [], 0;
    }

    ghost predicate Ours(spillSeq: Option<nat>)
      reads this
    {
      spillSeq.Some? ==> closedSeq < spillSeq.value <= spillUnitSeq
    }

    /** What is still in memory stays under both thresholds, where they count and the callback
        takes what it is handed. */
    ghost predicate Light(b: Buffer) {
      spillEnabled && spillEvents >= 1 && spillBytes >= 1 && (forall n :: accepts(n)) ==>
        |b.rows| < spillEvents && RowBytes(b.rows) < spillBytes
    }

    /** The parts that do not depend on the open unit. */
    ghost predicate Base()
      reads this
    {
      closedSeq <= spillUnitSeq && StagedUpTo(staged, spillUnitSeq) && Numbers(ordinals, snaps)
    }

    /** At most one unit is open, and every counter, dictionary and staged row agrees with
        the history. */
    ghost predicate Sane()
      reads this, txn, chunk
    {
      Base() &&
      (txn != null ==> chunk == null && txn.Valid(policy, staged) && Ours(txn.buffer.spillSeq) && Light(txn.buffer)) &&
      (chunk != null ==> chunk.Valid(policy, staged) && Ours(chunk.buffer.spillSeq) && Light(chunk.buffer))
    }

    /** Between calls, reads are deferred only behind an open transaction. */
    ghost predicate Valid()
      reads this, txn, chunk
    {
      Sane() && (deferred != [] ==> txn != null)
    }

    ghost function Abs(): State
      reads this, txn, chunk
    {
      State(if txn != null then InTxn(txn.Abs()) else if chunk != null then InChunk(chunk.Abs()) else Idle,
            deferred, snaps)
    }

    /** The call refused exactly when the specification does, for the same reason; or it
        left the specified state and emitted the specified units, staging nothing under
        the number of any unit closed before. */
    ghost predicate Refines(r: Checked<seq<CompleteUnit>>, spec: Fed, before: Staged, lo: nat)
      reads this, txn, chunk
    {
      match (r, spec)
      case (Err(e), Err(f)) => e == f && Undisturbed(before, staged, lo)
      case (Ok(units), Ok(v)) =>
        Sane() && Abs() == v.0 && AllRepresent(units, v.1, policy, staged) &&
        lo <= closedSeq && Sequenced(units, lo, closedSeq) && Undisturbed(before, staged, lo)
      case _ => false
    }

    /** `_spill`, past the threshold: the callback is told which unit the rows belong to. */
    method MaybeSpill(b: Buffer, ghost events: seq<Event>) returns (after: Buffer)
      requires Base() && BufferHolds(b, false, events, staged) && Ours(b.spillSeq)
      modifies this`staged, this`spillUnitSeq, this`spillCalls
      ensures Base() && BufferHolds(after, false, events, staged) && Ours(after.spillSeq)
      ensures Undisturbed(old(staged), staged, closedSeq)
      ensures Light(after)
      ensures !(spillEnabled && (|b.rows| >= spillEvents || b.memBytes >= spillBytes)) ==>
        after == b && staged == old(staged) && spillCalls == old(spillCalls)
    {
      after := b;
      assert RowBytes([]) == 0;
      if !spillEnabled || (|b.rows| < spillEvents && b.memBytes < spillBytes) { return; }
      if after.spillSeq.None? {
        spillUnitSeq := spillUnitSeq + 1;
        after := after.(spillSeq := Some(spillUnitSeq));
      }
      var taken := accepts(spillCalls);
      spillCalls := spillCalls + 1;
      if taken && b.rows != [] {
        var q := after.spillSeq.value;
        StagingHolds(after, q, events, staged);
        staged := staged[q := RowsAt(Some(q), staged) + b.rows];
        after := Buffer([], 0, b.spilled + |b.rows|, Some(q));
      }
    }

    /** Close the open chunk, if any. Only a `last` record may claim the whole snapshot
        ended, and an incremental chunk never claims its table complete. */
    method CloseOpenChunk(tableDone: bool) returns (units: seq<CompleteUnit>)
      requires Sane()
      modifies this`chunk, this`closedSeq
      ensures chunk == null
      ensures Sane() && Abs() == old(Abs()).(open := WithoutChunk(old(Abs()).open))
      ensures AllRepresent(units, CloseChunk(old(Abs()).open, tableDone), policy, staged)
      ensures old(closedSeq) <= closedSeq && Sequenced(units, old(closedSeq), closedSeq)
    {
      hide Totalled, BufferHolds, Represents;
      if chunk == null { return []; }
      var c := chunk;
      chunk := null;
      var u := ClosedChunk(c.schema, c.table, c.incremental, c.sawLast, c.totals, c.buffer, tableDone);
      ClosedRepresents(c.Abs(), c.sawLast, c.totals, c.buffer, tableDone, policy, staged);
      OneUnit(u, ChunkUnit(c.Abs(), tableDone), policy, staged, closedSeq,
              if c.buffer.spillSeq.Some? then c.buffer.spillSeq.value else closedSeq);
      units := [u];
      if c.buffer.spillSeq.Some? { closedSeq := c.buffer.spillSeq.value; }
    }

    method ControlOf(rec: Record) returns (u: CompleteUnit)
      ensures Represents(u, ControlUnit(rec), policy, staged) && u.spillSeq == None
    {
      u := CompleteUnit(Control, [], [rec], rec.txnId, LsnOrZero(rec), rec.lsn, rec.nbytes, None, None, {}, false, false,
        0, None, 0, None, false, if rec.refusal.Some? then [rec.refusal.value] else []);
    }

    method FeedBegin(rec: Record) returns (r: Checked<seq<CompleteUnit>>)
      requires Sane() && chunk == null
      modifies this`txn
      ensures txn == null || txn == old(txn) || fresh(txn)
      ensures Refines(r, Spec.FeedBegin(old(Abs()), rec), old(staged), old(closedSeq))
    {
      if txn != null { return Err(BeginInsideTransaction); }
      if rec.txnId.None? { return Err(NoTransactionId); }
      var t := new OpenTxn(rec.txnId.value, true);
      t.Cover(rec, policy, staged);
      txn := t;
      return Ok([]);
    }

    /** Count a record in `t`, staging its in-memory tail past the threshold. */
    method CountIn(t: OpenTxn, rec: Record, n: int)
      requires Base() && t.Valid(policy, staged) && Ours(t.buffer.spillSeq) && Light(t.buffer)
      modifies this`staged, this`spillUnitSeq, this`spillCalls, t
      ensures Base() && t.Valid(policy, staged) && Ours(t.buffer.spillSeq) && Light(t.buffer)
      ensures t.events == old(t.events) + [Event(rec, n)] && t.covered == old(t.covered) + [rec]
      ensures Undisturbed(old(staged), staged, closedSeq)
    {
      hide Numbers, Totalled, BufferHolds, Proves, RowBytes, StagedUpTo;
      t.Count(rec, n, policy, staged);
      if policy.discard {
        NothingHeldBack(t.buffer, t.events, staged);
        return;
      }
      var b := MaybeSpill(t.buffer, t.events);
      t.buffer := b;
    }

    /** The open transaction, or one opened implicitly because no BEGIN was seen. */
    method EnsureOpen(id: string)
      requires Sane() && chunk == null
      modifies this`txn, this`implicitOpens
      ensures Base() && txn != null && txn.Valid(policy, staged) && Ours(txn.buffer.spillSeq) && Light(txn.buffer)
      ensures old(txn) != null ==> txn == old(txn)
      ensures old(txn) == null ==> fresh(txn) && txn.Abs() == Txn(id, [], [])
    {
      if txn == null {
        implicitOpens := implicitOpens + 1;
        txn := new OpenTxn(id, false);
      }
    }

    /** Count a row event (`_feed_data`) or a transactional message. */
    method Admit(rec: Record) returns (r: Checked<seq<CompleteUnit>>)
      requires Sane() && chunk == null
      modifies this`txn, this`staged, this`spillUnitSeq, this`spillCalls, this`implicitOpens, txn
      ensures txn == null || txn == old(txn) || fresh(txn)
      ensures Refines(r, Spec.Admit(old(Abs()), rec), old(staged), old(closedSeq))
    {
      hide Totalled, BufferHolds, Tallied;
      if rec.txnId.None? { return Err(NoTransactionId); }
      var order := Ordinal(rec);
      if order.Err? { return Err(order.error); }
      EnsureOpen(rec.txnId.value);
      if txn.id != rec.txnId.value { return Err(TransactionIdChanged); }
      if order.value in txn.proof.orders { return Err(OrdinalRepeated); }
      CountIn(txn, rec, order.value);
      return Ok([]);
    }

    method FeedEnd(rec: Record) returns (r: Checked<seq<CompleteUnit>>)
      requires Sane() && chunk == null
      modifies this`txn, this`closedSeq, this`orphanEnds, txn
      ensures txn == null || txn == old(txn)
      ensures Refines(r, Spec.FeedEnd(old(Abs()), rec), old(staged), old(closedSeq))
    {
      hide Totalled, Proves, BufferHolds, Represents, Incomplete;
      if txn == null {
        orphanEnds := orphanEnds + 1;
        var u := ControlOf(rec);
        return Ok([u]);
      }
      if rec.txnId != Some(txn.id) { return Err(EndOfAnotherTransaction); }
      var refusal, unit := Finish(txn, rec);
      if refusal.Some? { return Err(refusal.value); }
      ghost var whole := TxnUnit(txn.id, txn.events, old(txn.covered) + [rec]);
      OneUnit(unit, whole, policy, staged, closedSeq, if unit.spillSeq.Some? then unit.spillSeq.value else closedSeq);
      txn := null;
      if unit.spillSeq.Some? { closedSeq := unit.spillSeq.value; }
      return Ok([unit]);
    }

    /** Cover END and prove the transaction whole, in every storage mode. */
    method Finish(t: OpenTxn, rec: Record) returns (refusal: Option<Error>, unit: CompleteUnit)
      requires t.Valid(policy, staged)
      modifies t`totals, t`covered
      ensures refusal == Incomplete(t.events, rec)
      ensures unit.spillSeq == t.buffer.spillSeq
      ensures refusal.None? ==> Represents(unit, TxnUnit(t.id, t.events, old(t.covered) + [rec]), policy, staged)
    {
      t.Cover(rec, policy, staged);
      refusal := VerifyComplete(t.totals.count, t.proof, rec, t.events);
      unit := EndUnit(t.id, t.totals, t.proof, t.buffer, rec);
      EndRepresents(t.id, t.totals, t.proof, t.buffer, rec, policy, t.events, t.covered, staged);
    }

    method FeedControl(rec: Record) returns (r: Checked<seq<CompleteUnit>>)
      requires Sane() && chunk == null
      modifies this`txn, this`staged, this`spillUnitSeq, this`spillCalls, this`implicitOpens, txn
      ensures txn == null || txn == old(txn) || fresh(txn)
      ensures Refines(r, Spec.FeedControl(old(Abs()), rec), old(staged), old(closedSeq))
    {
      hide Totalled, BufferHolds, Proves, Represents;
      if IsTransactionalMessage(rec) {
        r := Admit(rec);
        return;
      }
      if rec.kind.Message? {
        if txn != null { return Err(MessageInsideTransaction); }
        var u := MessageOf(rec);
        OneUnit(u, MessageUnit(rec), policy, staged, closedSeq, closedSeq);
        return Ok([u]);
      }
      if txn != null {
        txn.Cover(rec, policy, staged);
        return Ok([]);
      }
      var u := ControlOf(rec);
      OneUnit(u, ControlUnit(rec), policy, staged, closedSeq, closedSeq);
      return Ok([u]);
    }

    method MessageOf(rec: Record) returns (u: CompleteUnit)
      ensures Represents(u, MessageUnit(rec), policy, staged) && u.spillSeq == None
    {
      u := CompleteUnit(LogicalMessage, [Row(Event(rec, 0), None)], [rec], None, LsnOrZero(rec), rec.lsn, rec.nbytes,
        None, None, {}, false, false, 0, None, 0, Some(0), false,
        if rec.refusal.Some? then [rec.refusal.value] else []);
    }

    /** Everything but a snapshot record, once any open chunk is closed. */
    method FeedStream(rec: Record) returns (r: Checked<seq<CompleteUnit>>)
      requires Sane() && chunk == null
      modifies this`txn, this`staged, this`spillUnitSeq, this`spillCalls, this`implicitOpens, this`closedSeq,
               this`orphanEnds, txn
      ensures txn == null || txn == old(txn) || fresh(txn)
      ensures Refines(r, Spec.FeedStream(old(Abs()), rec), old(staged), old(closedSeq))
    {
      hide Sane, AllRepresent, Sequenced, Undisturbed, Spec.FeedBegin, Spec.FeedEnd, Spec.Admit, Spec.FeedControl;
      match rec.kind {
        case TxnBegin => r := FeedBegin(rec);
        case TxnEnd => r := FeedEnd(rec);
        case Data => r := Admit(rec);
        case Truncate => r := Admit(rec);
        case _ => r := FeedControl(rec);
      }
    }

    /** The arrival ordinal of a snapshot row in its own table. */
    method NextOrdinal(rec: Record) returns (ordinal: nat)
      requires Base()
      modifies this`ordinals, this`snaps
      ensures Base() && ordinal == Seen(old(snaps), TableKey(rec)) + 1 && snaps == old(snaps) + [rec]
    {
      var key := TableKey(rec);
      ordinal := (if key in ordinals then ordinals[key] else 0) + 1;
      NumbersOne(ordinals, snaps, rec);
      ordinals := ordinals[key := ordinal];
      snaps := snaps + [rec];
    }

    /** Add a snapshot row to the open chunk, staging its in-memory tail past the threshold. */
    method AddIn(c: OpenChunk, rec: Record, ordinal: nat)
      requires Base() && c.Valid(policy, staged) && Ours(c.buffer.spillSeq)
      modifies this`staged, this`spillUnitSeq, this`spillCalls, c
      ensures Base() && c.Valid(policy, staged) && Ours(c.buffer.spillSeq) && Light(c.buffer)
      ensures Undisturbed(old(staged), staged, closedSeq)
      ensures c.events == old(c.events) + [Event(rec, ordinal)] && c.covered == old(c.covered) + [rec]
    {
      hide Numbers, Totalled, BufferHolds, SawLast, Seen;
      c.Add(rec, ordinal, policy, staged);
      var b := MaybeSpill(c.buffer, c.events);
      c.buffer := b;
    }

    /** The chunk a snapshot row joins, once a chunk of another relation or mode is closed. */
    method OpenFor(rec: Record) returns (units: seq<CompleteUnit>)
      requires Sane() && txn == null
      modifies this`chunk, this`closedSeq
      ensures Sane() && chunk != null && (chunk == old(chunk) || fresh(chunk))
      ensures old(closedSeq) <= closedSeq && Sequenced(units, old(closedSeq), closedSeq)
      ensures var was := old(Abs()).open;
        chunk.Abs() == (if Continues(was, rec) then was.chunk
                        else Chunk(rec.schema, rec.table, rec.snapshot.Incremental?, [], [])) &&
        AllRepresent(units, Displaced(was, rec), policy, staged)
    {
      hide Totalled, BufferHolds, Represents, Numbers;
      units := [];
      if chunk != null && (chunk.table != rec.table || chunk.schema != rec.schema) {
        units := CloseOpenChunk(true);
      } else if chunk != null && chunk.incremental != rec.snapshot.Incremental? {
        units := CloseOpenChunk(false);
      }
      if chunk == null {
        chunk := new OpenChunk(rec.schema, rec.table, rec.snapshot.Incremental?);
        NothingHeld(policy, staged);
      }
    }

    /** Number a snapshot row on arrival and add it to its chunk. */
    method AddRow(rec: Record) returns (units: seq<CompleteUnit>)
      requires Sane() && txn == null
      modifies this`chunk, this`closedSeq, this`ordinals, this`snaps, this`staged, this`spillUnitSeq, this`spillCalls, chunk
      ensures Sane() && chunk != null && (chunk == old(chunk) || fresh(chunk))
      ensures chunk.Abs() == Grown(old(Abs()), rec) && snaps == old(snaps) + [rec]
      ensures AllRepresent(units, Displaced(old(Abs()).open, rec), policy, staged)
      ensures old(closedSeq) <= closedSeq && Sequenced(units, old(closedSeq), closedSeq)
      ensures Undisturbed(old(staged), staged, old(closedSeq))
    {
      hide Totalled, BufferHolds, Represents, Numbers, Seen, SumBytes, AllRepresent, Sequenced, Undisturbed, StagedUpTo;
      units := OpenFor(rec);
      var ordinal := NextOrdinal(rec);
      AddIn(chunk, rec, ordinal);
      UndisturbedBelow(old(staged), staged, old(closedSeq), closedSeq);
      StillRepresents(units, Displaced(old(Abs()).open, rec), policy, old(staged), staged, old(closedSeq), closedSeq);
    }

    method FeedSnapshot(rec: Record) returns (r: Checked<seq<CompleteUnit>>)
      requires Sane() && txn == null
      modifies this`chunk, this`closedSeq, this`ordinals, this`snaps, this`staged, this`spillUnitSeq, this`spillCalls, chunk
      ensures chunk == null || chunk == old(chunk) || fresh(chunk)
      ensures Refines(r, Spec.FeedSnapshot(cfg, old(Abs()), rec), old(staged), old(closedSeq))
    {
      hide Totalled, BufferHolds, Represents, Numbers, Seen, SumBytes, AllRepresent, Sequenced, Undisturbed, StagedUpTo;
      SameStaging(staged, closedSeq);
      if rec.snapshot.Incremental? && !cfg.incrementalEnabled { return Err(IncrementalRefused); }
      var units := AddRow(rec);
      var full := IsFull(chunk);
      if TableLast(rec) || full {
        ghost var mid := closedSeq;
        SameStaging(staged, mid);
        var more := CloseOpenChunk(TableLast(rec));
        Joined(units, Displaced(old(Abs()).open, rec), more, [ChunkUnit(Grown(old(Abs()), rec), TableLast(rec))],
               policy, staged, staged, old(closedSeq), mid, closedSeq);
        units := units + more;
      }
      return Ok(units);
    }

    /** Release the deferred reads in arrival order, now that no transaction is open. */
    method FlushDeferred() returns (r: Checked<seq<CompleteUnit>>)
      requires Sane() && txn == null
      modifies this`deferred, this`chunk, this`closedSeq, this`ordinals, this`snaps, this`staged, this`spillUnitSeq,
               this`spillCalls, chunk
      ensures r.Ok? ==> deferred == []
      ensures chunk == null || chunk == old(chunk) || fresh(chunk)
      ensures Refines(r, Flush(cfg, old(Abs()).(deferred := []), old(deferred)), old(staged), old(closedSeq))
    {
      hide Represents, AllRepresent, Sequenced, Undisturbed;
      var queue := deferred;
      deferred := [];
      assert Sane() && Abs() == old(Abs()).(deferred := []);
      hide Sane;
      ghost var whole := Flush(cfg, Abs(), queue);
      PrefixedNone(whole);
      var units := [];
      ghost var done: seq<Unit> := [];
      Nothing(policy, staged, closedSeq);
      while queue != []
        invariant Sane() && txn == null && deferred == []
        invariant chunk == null || chunk == old(chunk) || fresh(chunk)
        invariant whole == Prefixed(done, Flush(cfg, Abs(), queue))
        invariant AllRepresent(units, done, policy, staged)
        invariant old(closedSeq) <= closedSeq && Sequenced(units, old(closedSeq), closedSeq)
        invariant Undisturbed(old(staged), staged, old(closedSeq))
        decreases |queue|
      {
        ghost var before, mid, was := staged, closedSeq, Abs();
        var more := FeedSnapshot(queue[0]);
        FlushOne(cfg, was, queue, done, whole);
        UndisturbedTwice(old(staged), before, staged, old(closedSeq), mid);
        if more.Err? { return more; }
        ghost var emitted := Spec.FeedSnapshot(cfg, was, queue[0]).value.1;
        Joined(units, done, more.value, emitted, policy, before, staged, old(closedSeq), mid, closedSeq);
        units, done, queue := units + more.value, done + emitted, queue[1..];
      }
      assert done + [] == done;
      return Ok(units);
    }

    /** Any non-snapshot record first ends the snapshot phase of the table whose chunk is open. */
    method CloseThenStream(rec: Record) returns (r: Checked<seq<CompleteUnit>>)
      requires Sane()
      modifies this`chunk, this`txn, this`staged, this`spillUnitSeq, this`spillCalls, this`implicitOpens, this`closedSeq,
               this`orphanEnds, txn
      ensures chunk == null && (txn == null || txn == old(txn) || fresh(txn))
      ensures var was := old(Abs());
        Refines(r, Prefixed(CloseChunk(was.open, true), Spec.FeedStream(was.(open := WithoutChunk(was.open)), rec)),
                old(staged), old(closedSeq))
    {
      hide Sane, Represents, AllRepresent, Sequenced, Undisturbed, Spec.FeedStream;
      var closed := CloseOpenChunk(true);
      ghost var was, mid, before := old(Abs()), closedSeq, staged;
      var units := FeedStream(rec);
      UndisturbedBelow(before, staged, old(closedSeq), mid);
      if units.Err? { return units; }
      ghost var emitted := Spec.FeedStream(was.(open := WithoutChunk(was.open)), rec).value.1;
      Joined(closed, CloseChunk(was.open, true), units.value, emitted, policy, before, staged, old(closedSeq), mid, closedSeq);
      return Ok(closed + units.value);
    }

    /** `feed` before it counts the units it emits. */
    method Dispatch(rec: Record) returns (r: Checked<seq<CompleteUnit>>)
      requires Valid()
      modifies this, txn, chunk
      ensures r.Ok? ==> Valid() && unitsEmitted == old(unitsEmitted)
      ensures (txn == null || txn == old(txn) || fresh(txn)) && (chunk == null || chunk == old(chunk) || fresh(chunk))
      ensures Refines(r, FeedRecord(cfg, old(Abs()), rec), old(staged), old(closedSeq))
    {
      hide Represents, AllRepresent, Sequenced, Undisturbed, Numbers, StagedUpTo, OpenTxn.Valid, OpenChunk.Valid;
      if rec.kind.Snapshot? {
        if txn != null {
          SameStaging(staged, closedSeq);
          if !rec.snapshot.Incremental? || !cfg.incrementalEnabled { return Err(SnapshotInsideTransaction); }
          r := Defer(rec);
        } else {
          r := FeedSnapshot(rec);
        }
      } else {
        r := FeedAndFlush(rec);
      }
    }

    method Feed(rec: Record) returns (r: Checked<seq<CompleteUnit>>)
      requires Valid()
      modifies this, txn, chunk
      ensures r.Ok? ==> Valid() && unitsEmitted == old(unitsEmitted) + |r.value|
      ensures (txn == null || txn == old(txn) || fresh(txn)) && (chunk == null || chunk == old(chunk) || fresh(chunk))
      ensures Refines(r, FeedRecord(cfg, old(Abs()), rec), old(staged), old(closedSeq))
    {
      hide Represents, AllRepresent, Sequenced, Undisturbed, Numbers, StagedUpTo, OpenTxn.Valid, OpenChunk.Valid, FeedRecord;
      r := Dispatch(rec);
      if r.Ok? { unitsEmitted := unitsEmitted + |r.value|; }
    }

    /** Hold an incremental read until the open transaction is proven whole. */
    method Defer(rec: Record) returns (r: Checked<seq<CompleteUnit>>)
      requires Sane() && txn != null
      modifies this`deferred
      ensures r == Ok([]) && deferred == old(deferred) + [rec]
      ensures Refines(r, Ok((old(Abs()).(deferred := old(deferred) + [rec]), [])), old(staged), old(closedSeq))
    {
      deferred := deferred + [rec];
      Nothing(policy, staged, closedSeq);
      return Ok([]);
    }

    method FeedAndFlush(rec: Record) returns (r: Checked<seq<CompleteUnit>>)
      requires Valid() && !rec.kind.Snapshot?
      modifies this`chunk, this`txn, this`staged, this`spillUnitSeq, this`spillCalls, this`implicitOpens, this`closedSeq,
               this`orphanEnds, this`deferred, this`ordinals, this`snaps, txn
      ensures r.Ok? ==> Valid()
      ensures (txn == null || txn == old(txn) || fresh(txn)) && (chunk == null || fresh(chunk))
      ensures Refines(r, FeedRecord(cfg, old(Abs()), rec), old(staged), old(closedSeq))
    {
      hide Sane, Represents, AllRepresent, Sequenced, Undisturbed, Spec.FeedStream, Flush;
      ghost var was := old(Abs());
      var units := CloseThenStream(rec);
      if units.Err? || txn != null { return units; }
      ghost var streamed := Prefixed(CloseChunk(was.open, true), Spec.FeedStream(was.(open := WithoutChunk(was.open)), rec)).value;
      ghost var mid, before := closedSeq, staged;
      var released := FlushDeferred();
      UndisturbedTwice(old(staged), before, staged, old(closedSeq), mid);
      if released.Err? { return released; }
      ghost var flushed := Flush(cfg, streamed.0.(deferred := []), streamed.0.deferred).value;
      Joined(units.value, streamed.1, released.value, flushed.1, policy, before, staged, old(closedSeq), mid, closedSeq);
      return Ok(units.value + released.value);
    }

    /** The explicit snapshot boundary: refused inside a transaction, and never acknowledgeable. */
    method FeedSnapshotBoundary(rec: Record) returns (r: Checked<seq<CompleteUnit>>)
      requires Valid()
      modifies this`chunk, this`closedSeq, this`unitsEmitted
      ensures r.Ok? ==> Valid() && unitsEmitted == old(unitsEmitted) + |r.value|
      ensures chunk == null || chunk == old(chunk)
      ensures Refines(r, FeedBoundary(old(Abs()), rec), old(staged), old(closedSeq))
    {
      hide Represents, AllRepresent, Sequenced, Undisturbed, Numbers, StagedUpTo, OpenTxn.Valid, OpenChunk.Valid;
      SameStaging(staged, closedSeq);
      if !rec.kind.SnapshotBoundary? || rec.acknowledgeable { return Err(BoundaryMalformed); }
      if txn != null { return Err(BoundaryInsideTransaction); }
      var units := CloseOpenChunk(true);
      var u := ControlOf(rec);
      SameStaging(staged, closedSeq);
      OneUnit(u, ControlUnit(rec), policy, staged, closedSeq, closedSeq);
      Joined(units, CloseChunk(old(Abs()).open, true), [u], [ControlUnit(rec)], policy, staged, staged,
             old(closedSeq), closedSeq, closedSeq);
      units := units + [u];
      unitsEmitted := unitsEmitted + |units|;
      return Ok(units);
    }

    /** Drop the unit still open, and count exactly the events it had counted and the reads
        it had deferred. */
    method DiscardOpenUnit() returns (discarded: nat)
      requires Valid()
      modifies this`txn, this`chunk, this`deferred, this`discardedTail
      ensures Valid() && Abs() == State(Idle, [], snaps)
      ensures discarded == |OpenEvents(old(Abs()).open)| + |old(deferred)|
      ensures discardedTail == old(discardedTail) + discarded
    {
      discarded := 0;
      if txn != null {
        discarded := discarded + txn.totals.count;
        txn := null;
      }
      if chunk != null {
        discarded := discarded + chunk.totals.count;
        chunk := null;
      }
      discarded := discarded + |deferred|;
      deferred := [];
      discardedTail := discardedTail + discarded;
    }

    method IsFull(c: OpenChunk) returns (full: bool)
      requires c.Valid(policy, staged)
      ensures full == Full(cfg, c.Abs())
    {
      full := c.totals.count >= cfg.chunkEvents || c.totals.nbytes >= cfg.chunkBytes;
    }
  }

  lemma Nothing(p: Policy, staged: Staged, lo: nat)
    ensures AllRepresent([], [], p, staged) && Sequenced([], lo, lo) && Undisturbed(staged, staged, lo)
  {
  }

  /** The outcome of a call that emitted `units` and went on as `rest`. */
  ghost function Prefixed(units: seq<Unit>, rest: Fed): Fed {
    match rest
    case Err(e) => Err(e)
    case Ok((s, more)) => Ok((s, units + more))
  }

  lemma PrefixedNone(rest: Fed)
    ensures Prefixed([], rest) == rest
  {
    if rest.Ok? {
      assert [] + rest.value.1 == rest.value.1;
    }
  }

  lemma Rejoined(a: seq<Unit>, b: seq<Unit>, c: seq<Unit>)
    ensures a + (b + c) == a + b + c
  {
  }

  lemma FlushOne(cfg: Config, s: State, queue: seq<Record>, done: seq<Unit>, whole: Fed)
    requires !s.open.InTxn? && queue != [] && whole == Prefixed(done, Flush(cfg, s, queue))
    ensures var first := Spec.FeedSnapshot(cfg, s, queue[0]);
      if first.Err? then whole == Err(first.error)
      else !first.value.0.open.InTxn? && whole == Prefixed(done + first.value.1, Flush(cfg, first.value.0, queue[1..]))
  {
    var first := Spec.FeedSnapshot(cfg, s, queue[0]);
    assert first.Ok? ==> !first.value.0.open.InTxn?;
    hide Spec.FeedSnapshot;
    if first.Ok? {
      var rest := Flush(cfg, first.value.0, queue[1..]);
      if rest.Ok? {
        Rejoined(done, first.value.1, rest.value.1);
      }
    }
  }

  lemma NothingHeld(p: Policy, staged: Staged)
    ensures Totalled(NO_TOTALS, p.keepAll, [], []) && BufferHolds(EMPTY_BUFFER, false, [], staged)
  {
  }

  lemma NumbersOne(ordinals: map<string, nat>, snaps: seq<Record>, rec: Record)
    requires Numbers(ordinals, snaps)
    ensures var key := TableKey(rec);
      var n := (if key in ordinals then ordinals[key] else 0) + 1;
      Numbers(ordinals[key := n], snaps + [rec]) && n == Seen(snaps, key) + 1
  {
    assert (snaps + [rec])[..|snaps|] == snaps;
  }

  // ---------------------------------------------------------------------------
  // Whole runs, whatever is spilled
  // ---------------------------------------------------------------------------

  lemma RunOne(cfg: Config, s: State, inputs: seq<Input>, done: seq<Unit>, whole: Outcome)
    requires inputs != [] && whole == Onward(done, Run(cfg, s, inputs))
    ensures var first := Step(cfg, s, inputs[0]);
      if first.Err? then whole == Outcome(done, Err(first.error))
      else whole == Onward(done + first.value.1, Run(cfg, first.value.0, inputs[1..]))
  {
    var first := Step(cfg, s, inputs[0]);
    if first.Ok? {
      var rest := Run(cfg, first.value.0, inputs[1..]);
      Rejoined(done, first.value.1, rest.units);
    } else {
      assert done + [] == done;
    }
  }

  ghost function Onward(done: seq<Unit>, rest: Outcome): Outcome {
    Outcome(done + rest.units, rest.last)
  }

  /** Feed a whole stream to a new assembler. Whatever the thresholds and whatever the
      spill callback takes, the stream is accepted or refused as the specification says,
      and every unit, with the rows staged under its own number, is the specified one. */
  method Drive(cfg: Config, policy: Policy, spillEnabled: bool, spillEvents: int, spillBytes: int, accepts: nat -> bool,
               inputs: seq<Input>) returns (units: seq<CompleteUnit>, refusal: Option<Error>, staged: Staged)
    ensures var whole := Run(cfg, INITIAL, inputs);
      AllRepresent(units, whole.units, policy, staged) &&
      refusal == match whole.last { case Ok(_) => None case Err(e) => Some(e) }
    ensures Increasing(units)
  {
    hide Represents, AllRepresent, Undisturbed, Increasing, Step, TransactionAssembler.Valid;
    var assembler := new TransactionAssembler(cfg, policy, spillEnabled, spillEvents, spillBytes, accepts);
    var queue := inputs;
    ghost var done: seq<Unit> := [];
    ghost var whole := Run(cfg, INITIAL, inputs);
    units := [];
    Nothing(policy, assembler.staged, 0);
    while queue != []
      invariant assembler.Valid() && fresh(assembler) && assembler.cfg == cfg && assembler.policy == policy
      invariant (assembler.txn == null || fresh(assembler.txn)) && (assembler.chunk == null || fresh(assembler.chunk))
      invariant whole == Onward(done, Run(cfg, assembler.Abs(), queue))
      invariant AllRepresent(units, done, policy, assembler.staged) && Sequenced(units, 0, assembler.closedSeq)
      decreases |queue|
    {
      ghost var was, before, mid := assembler.Abs(), assembler.staged, assembler.closedSeq;
      RunOne(cfg, was, queue, done, whole);
      var r := FeedOne(assembler, queue[0]);
      if r.Err? {
        StillRepresents(units, done, policy, before, assembler.staged, 0, mid);
        return units, Some(r.error), assembler.staged;
      }
      ghost var emitted := Step(cfg, was, queue[0]).value.1;
      Joined(units, done, r.value, emitted, policy, before, assembler.staged, 0, mid, assembler.closedSeq);
      units, done, queue := units + r.value, done + emitted, queue[1..];
    }
    assert done + [] == done;
    return units, None, assembler.staged;
  }

  method FeedOne(assembler: TransactionAssembler, input: Input) returns (r: Checked<seq<CompleteUnit>>)
    requires assembler.Valid()
    modifies assembler, assembler.txn, assembler.chunk
    ensures r.Ok? ==> assembler.Valid()
    ensures (assembler.txn == null || assembler.txn == old(assembler.txn) || fresh(assembler.txn))
         && (assembler.chunk == null || assembler.chunk == old(assembler.chunk) || fresh(assembler.chunk))
    ensures assembler.Refines(r, Step(assembler.cfg, old(assembler.Abs()), input), old(assembler.staged), old(assembler.closedSeq))
  {
    match input {
      case Feed(rec) => r := assembler.Feed(rec);
      case Boundary(rec) => r := assembler.FeedSnapshotBoundary(rec);
    }
  }

  function Unstamped(rows: seq<Row>): seq<Row> {
    seq(|rows|, i requires 0 <= i < |rows| => Row(rows[i].event, None))
  }

  /** A unit with its staged rows put back before those still in memory, and with the
      marks of spilling (number, counts, stamps, and the last LSN in memory) removed. */
  function Meaning(u: CompleteUnit, staged: Staged): CompleteUnit {
    u.(rows := Unstamped(RowsAt(u.spillSeq, staged) + u.rows), spilledEvents := 0, spillSeq := None, lastLsn := 0)
  }

  lemma SameRows(a: seq<Row>, b: seq<Row>, c: seq<Row>, d: seq<Row>)
    requires Plain(a) + Plain(b) == Plain(c) + Plain(d)
    ensures Unstamped(a + b) == Unstamped(c + d)
  {
    assert |a + b| == |c + d|;
    forall i | 0 <= i < |a + b|
      ensures (a + b)[i].event == (c + d)[i].event
    {
      assert (a + b)[i].event == (Plain(a) + Plain(b))[i] && (c + d)[i].event == (Plain(c) + Plain(d))[i];
    }
  }

  /** Two runs of one stream that differ only in spilling hand over the same units. */
  lemma SpillingKeepsMeaning(us: seq<CompleteUnit>, vs: seq<CompleteUnit>, wholes: seq<Unit>, p: Policy,
                             stagedU: Staged, stagedV: Staged)
    requires AllRepresent(us, wholes, p, stagedU) && AllRepresent(vs, wholes, p, stagedV)
    ensures |us| == |vs|
    ensures forall i :: 0 <= i < |us| ==> Meaning(us[i], stagedU) == Meaning(vs[i], stagedV)
  {
    forall i | 0 <= i < |us|
      ensures Meaning(us[i], stagedU) == Meaning(vs[i], stagedV)
    {
      var u, v := us[i], vs[i];
      assert Represents(u, wholes[i], p, stagedU) && Represents(v, wholes[i], p, stagedV);
      SameRows(RowsAt(u.spillSeq, stagedU), u.rows, RowsAt(v.spillSeq, stagedV), v.rows);
    }
  }

  /** The last LSN of a transaction unit is the one thing spilling can change. It cannot,
      wherever the spill falls, exactly when END carries no position or one that no
      event's position exceeds. */
  lemma LastLsnIgnoresSpilling(end: Record, events: seq<Event>)
    ensures (forall k :: 0 <= k <= |events| ==> LastLsnFrom(end, events, k) == LastLsnFrom(end, events, 0))
       <==> (LsnOrZero(end) == 0 || MaxLsn(events) <= LsnOrZero(end))
  {
    assert events[0..] == events && events[|events|..] == [];
    forall k | 0 <= k <= |events|
      ensures MaxLsn(events[k..]) <= MaxLsn(events)
    {
      assert events == events[..k] + events[k..];
      MaxLsnOfTail(events[..k], events[k..]);
    }
    assert LastLsnFrom(end, events, |events|) == CommitLsn(end, events);
    assert LastLsnFrom(end, events, 0) == Max(CommitLsn(end, events), MaxLsn(events));
  }

  /** The last LSN of a unit of which the events from `k` on are still in memory. */
  function LastLsnFrom(end: Record, events: seq<Event>, k: nat): nat
    requires k <= |events|
  {
    Max(CommitLsn(end, events), MaxLsn(events[k..]))
  }

  lemma {:induction false} MaxLsnOfTail(front: seq<Event>, tail: seq<Event>)
    ensures MaxLsn(tail) <= MaxLsn(front + tail)
    decreases |tail|
  {
    if tail != [] {
      var rest := tail[..|tail| - 1];
      MaxLsnOfTail(front, rest);
      assert (front + tail)[..|front + tail| - 1] == front + rest;
    }
  }

  /** A transaction unit reports the last LSN of the events still in memory; a discard-only
      stream keeps none. */
  lemma UnitLastLsn(u: CompleteUnit, id: string, events: seq<Event>, records: seq<Record>, p: Policy, staged: Staged)
    requires Represents(u, TxnUnit(id, events, records), p, staged)
    ensures u.spilledEvents <= |events|
    ensures u.lastLsn == LastLsnFrom(records[|records| - 1], events, if p.discard then |events| else u.spilledEvents)
  {
    var prefix := Plain(RowsAt(u.spillSeq, staged));
    if p.discard {
      assert events[|events|..] == [] == Plain(u.rows);
    } else {
      assert events[|prefix|..] == Plain(u.rows);
    }
  }

  /** END stamps its commit position on the rows still in memory only: the rows of a unit
      all carry it exactly when nothing of the unit was staged. */
  lemma StampedIffInMemory(u: CompleteUnit, id: string, events: seq<Event>, records: seq<Record>, p: Policy, staged: Staged)
    requires Represents(u, TxnUnit(id, events, records), p, staged)
    ensures AllStamped(RowsAt(u.spillSeq, staged) + u.rows, u.commitLsn) <==> u.spilledEvents == 0
  {
    var prefix := RowsAt(u.spillSeq, staged);
    if prefix != [] {
      assert prefix[0] in prefix && prefix[0] in prefix + u.rows;
    }
  }

  /** What a unit keeps for acknowledgement: every record it covers, or only the last of them. */
  lemma KeepsLastRecord(u: CompleteUnit, whole: Unit, p: Policy, staged: Staged)
    requires Represents(u, whole, p, staged) && RecordsOf(whole) != []
    ensures u.records != [] && u.records[|u.records| - 1] == RecordsOf(whole)[|RecordsOf(whole)| - 1]
    ensures if p.keepAll then u.records == RecordsOf(whole) else |u.records| == 1
  {
    hide Holds, AllStamped, Touched, Delivered, Refusals, SumBytes, MaxLsn, CommitLsn;
  }
}
