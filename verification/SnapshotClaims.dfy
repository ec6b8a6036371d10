/** When a snapshot chunk closes, and when it may claim that its table is complete: told for
    every run from the records around it (src/cdc_flight/assembler.py). */
module SnapshotClaims {
  import opened Options
  import opened Sequences
  import opened Records
  import opened AssemblerSpec
  import opened AssemblerProofs
  import AssemblerStreams

  /** Debezium's mark on the last row of a table. */
  predicate LastMark(rec: Record) {
    rec.snapshot.LastInCollection? || rec.snapshot.Last?
  }

  predicate AtLimit(cfg: Config, records: seq<Record>) {
    |records| >= cfg.chunkEvents || SumBytes(records) >= cfg.chunkBytes
  }

  /** None of the first `n` rows is the last of its table or fills the chunk. */
  ghost predicate Unfinished(cfg: Config, records: seq<Record>, n: nat) {
    n <= |records| && forall i :: 0 <= i < n ==> !LastMark(records[i]) && !AtLimit(cfg, records[..i + 1])
  }

  predicate RowOf(rec: Record, chunk: Chunk) {
    rec.kind.Snapshot? && rec.schema == chunk.schema && rec.table == chunk.table
  }

  /** A closed chunk and the record covered after it. It closed at its first row that is the
      last of the table or fills it, or because the next record is no row of the same relation
      and mode; and it claims its table exactly if its final row is marked last, or if it was
      not full and the next record is no row of the relation. */
  ghost predicate Closed(cfg: Config, chunk: Chunk, tableDone: bool, next: Option<Record>) {
    var n := |chunk.records|;
    n >= 1 && Unfinished(cfg, chunk.records, n - 1) &&
    var marked, full := LastMark(chunk.records[n - 1]), AtLimit(cfg, chunk.records);
    (marked || full || (next.Some? && !(RowOf(next.value, chunk) && next.value.snapshot.Incremental? == chunk.incremental))) &&
    (tableDone <==> marked || (!full && next.Some? && !RowOf(next.value, chunk)))
  }

  function FirstOf(records: seq<Record>): Option<Record> {
    if records == [] then None else Some(records[0])
  }

  /** Every chunk among the units closed as it should, where `tail` is covered after them. */
  ghost predicate AllClosed(cfg: Config, units: seq<Unit>, tail: seq<Record>) {
    forall i :: 0 <= i < |units| && units[i].ChunkUnit? ==>
      Closed(cfg, units[i].chunk, units[i].tableDone, FirstOf(Covered(units[i + 1..]) + tail))
  }

  ghost predicate Growing(cfg: Config, open: Open) {
    open.InChunk? ==> ChunkSound(open.chunk) && Unfinished(cfg, open.chunk.records, |open.chunk.records|)
  }

  /** A chunk that closed by itself did so whatever comes next. */
  lemma ClosedAnyway(cfg: Config, chunk: Chunk, tableDone: bool, next: Option<Record>)
    requires Closed(cfg, chunk, tableDone, None)
    ensures Closed(cfg, chunk, tableDone, next)
  {
    hide Unfinished, AtLimit;
  }

  /** Units that follow units, where the first of what follows is what was expected. */
  lemma AllClosedJoin(cfg: Config, a: seq<Unit>, mid: seq<Record>, b: seq<Unit>, tail: seq<Record>)
    requires AllClosed(cfg, a, mid) && AllClosed(cfg, b, tail) && Prefix(mid, Covered(b) + tail)
    ensures AllClosed(cfg, a + b, tail)
  {
    hide Closed, Covered;
    var units := a + b;
    forall i | 0 <= i < |units| && units[i].ChunkUnit?
      ensures Closed(cfg, units[i].chunk, units[i].tableDone, FirstOf(Covered(units[i + 1..]) + tail))
    {
      if i < |a| {
        assert units[i + 1..] == a[i + 1..] + b && units[i] == a[i];
        CoveredAppend(a[i + 1..], b);
        hide FirstOf, Prefix;
        NextAfter(cfg, a[i], Covered(a[i + 1..]), mid, Covered(b), tail);
      } else {
        assert units[i + 1..] == b[i - |a| + 1..] && units[i] == b[i - |a|];
      }
    }
  }

  lemma NextAfter(cfg: Config, u: Unit, between: seq<Record>, mid: seq<Record>, more: seq<Record>, tail: seq<Record>)
    requires u.ChunkUnit? && Closed(cfg, u.chunk, u.tableDone, FirstOf(between + mid)) && Prefix(mid, more + tail)
    ensures Closed(cfg, u.chunk, u.tableDone, FirstOf(between + more + tail))
  {
    hide Closed;
    if between == [] {
      assert between + mid == mid && between + more + tail == more + tail;
      if mid == [] {
        ClosedAnyway(cfg, u.chunk, u.tableDone, FirstOf(more + tail));
      } else {
        assert (more + tail)[..|mid|][0] == mid[0];
      }
    } else {
      assert FirstOf(between + mid) == Some(between[0]) == FirstOf(between + more + tail);
    }
  }

  // ---------------------------------------------------------------------------
  // One step
  // ---------------------------------------------------------------------------

  lemma GrownSound(s: State, rec: Record)
    requires !s.open.InTxn? && rec.kind.Snapshot? && (s.open.InChunk? ==> ChunkSound(s.open.chunk))
    ensures var chunk := Grown(s, rec);
      ChunkSound(chunk) && |chunk.records| == |chunk.events| && RowOf(rec, chunk) && rec.snapshot.Incremental? == chunk.incremental &&
      chunk.records == (if Continues(s.open, rec) then s.open.chunk.records else []) + [rec]
  {
    hide Seen;
    var chunk := Grown(s, rec);
    var before := if Continues(s.open, rec) then s.open.chunk.events else [];
    assert RecsOf(chunk.events) == RecsOf(before) + [rec];
    assert forall i :: 0 <= i < |before| ==> chunk.events[i] == before[i] && before[i] in before;
  }

  lemma UnfinishedMore(cfg: Config, records: seq<Record>, rec: Record)
    requires Unfinished(cfg, records, |records|)
    ensures Unfinished(cfg, records + [rec], |records|)
  {
    hide AtLimit;
    var more := records + [rec];
    forall i | 0 <= i < |records|
      ensures !LastMark(more[i]) && !AtLimit(cfg, more[..i + 1])
    {
      assert more[..i + 1] == records[..i + 1] && more[i] == records[i];
    }
  }

  /** A chunk that is still growing is neither marked nor full. */
  lemma UnfinishedEnd(cfg: Config, records: seq<Record>)
    requires Unfinished(cfg, records, |records|) && records != []
    ensures Unfinished(cfg, records, |records| - 1) && !LastMark(records[|records| - 1]) && !AtLimit(cfg, records)
  {
    hide AtLimit;
    assert records[..|records|] == records;
  }

  lemma OneClosed(cfg: Config, u: Unit, tail: seq<Record>)
    requires u.ChunkUnit? ==> Closed(cfg, u.chunk, u.tableDone, FirstOf(tail))
    ensures AllClosed(cfg, [u], tail)
  {
    hide Closed;
    CoveredNone();
    assert [u][1..] == [] && [] + tail == tail;
  }

  lemma DisplacedClosed(cfg: Config, s: State, rec: Record)
    requires !s.open.InTxn? && Growing(cfg, s.open) && rec.kind.Snapshot?
    ensures AllClosed(cfg, Displaced(s.open, rec), [rec])
  {
    if s.open.InChunk? && !Continues(s.open, rec) {
      var c := s.open.chunk;
      UnfinishedEnd(cfg, c.records);
      hide Unfinished, AtLimit;
      OneClosed(cfg, ChunkUnit(c, !SameRelation(c, rec)), [rec]);
    } else {
      NoneClosed(cfg, [rec]);
    }
  }

  lemma FeedSnapshotClosed(cfg: Config, s: State, rec: Record)
    requires !s.open.InTxn? && Growing(cfg, s.open) && rec.kind.Snapshot? && FeedSnapshot(cfg, s, rec).Ok?
    ensures var (s1, units) := FeedSnapshot(cfg, s, rec).value;
      Growing(cfg, s1.open) && !s1.open.InTxn? && AllClosed(cfg, units, OpenRecords(s1.open))
  {
    var chunk, closed := Grown(s, rec), Displaced(s.open, rec);
    GrownSound(s, rec);
    UnfinishedMore(cfg, if Continues(s.open, rec) then s.open.chunk.records else [], rec);
    DisplacedClosed(cfg, s, rec);
    var (s1, units) := FeedSnapshot(cfg, s, rec).value;
    var own := if s1.open.Idle? then [ChunkUnit(chunk, TableLast(rec))] else [];
    assert units == closed + own;
    assert closed != [] ==> !Continues(s.open, rec);
    hide AllClosed, Grown, Displaced, Unfinished, Growing, ChunkSound, SumBytes, Covered;
    OwnClosed(cfg, chunk, rec, own, s1.open);
    if closed == [] {
      assert units == own;
    } else {
      assert chunk.records == [rec];
      OwnCovers(chunk, rec, own, s1.open);
      AllClosedJoin(cfg, closed, [rec], own, OpenRecords(s1.open));
    }
  }

  lemma OwnClosed(cfg: Config, chunk: Chunk, rec: Record, own: seq<Unit>, open: Open)
    requires chunk.records != [] && chunk.records[|chunk.records| - 1] == rec
    requires ChunkSound(chunk) && Unfinished(cfg, chunk.records, |chunk.records| - 1)
    requires if LastMark(rec) || AtLimit(cfg, chunk.records) then own == [ChunkUnit(chunk, LastMark(rec))] && open.Idle?
             else own == [] && open == InChunk(chunk)
    ensures AllClosed(cfg, own, OpenRecords(open)) && Growing(cfg, open)
  {
    hide AtLimit, ChunkSound;
    assert chunk.records[..|chunk.records|] == chunk.records;
    if own == [] {
      NoneClosed(cfg, OpenRecords(open));
    } else {
      OneClosed(cfg, own[0], []);
    }
  }

  lemma OwnCovers(chunk: Chunk, rec: Record, own: seq<Unit>, open: Open)
    requires chunk.records == [rec] && if own == [] then open == InChunk(chunk) else |own| == 1 && own[0].ChunkUnit? && own[0].chunk == chunk
    ensures Prefix([rec], Covered(own) + OpenRecords(open))
  {
    if own != [] { assert own[1..] == []; }
    CoveredNone();
    assert (Covered(own) + OpenRecords(open))[0] == rec;
  }

  lemma {:induction false} FlushClosed(cfg: Config, s: State, queue: seq<Record>)
    requires !s.open.InTxn? && Growing(cfg, s.open) && (forall r :: r in queue ==> r.kind.Snapshot?) && Flush(cfg, s, queue).Ok?
    ensures var (s1, units) := Flush(cfg, s, queue).value; Growing(cfg, s1.open) && AllClosed(cfg, units, OpenRecords(s1.open))
    decreases |queue|
  {
    hide Growing, AllClosed, Covered, OpenRecords, FeedSnapshot;
    if queue == [] {
      NoneClosed(cfg, OpenRecords(s.open));
    } else {
      var (s1, u1) := FeedSnapshot(cfg, s, queue[0]).value;
      FeedSnapshotClosed(cfg, s, queue[0]);
      FlushClosed(cfg, s1, queue[1..]);
      var (s2, u2) := Flush(cfg, s1, queue[1..]).value;
      AssemblerStreams.FlushCovers(cfg, s1, queue[1..]);
      AllClosedJoin(cfg, u1, OpenRecords(s1.open), u2, OpenRecords(s2.open));
    }
  }

  lemma NoneClosed(cfg: Config, tail: seq<Record>)
    ensures AllClosed(cfg, [], tail)
  {
  }

  lemma OthersClosed(cfg: Config, units: seq<Unit>, tail: seq<Record>)
    requires forall u :: u in units ==> !u.ChunkUnit?
    ensures AllClosed(cfg, units, tail)
  {
  }

  /** A record that is no snapshot row closes the open chunk, and its table is done. */
  lemma InterruptedClosed(cfg: Config, open: Open, rec: Record)
    requires Growing(cfg, open) && !rec.kind.Snapshot?
    ensures AllClosed(cfg, CloseChunk(open, true), if open.InChunk? then [rec] else [])
  {
    if open.InChunk? {
      UnfinishedEnd(cfg, open.chunk.records);
      hide Unfinished, AtLimit;
      OneClosed(cfg, ChunkUnit(open.chunk, true), [rec]);
    } else {
      NoneClosed(cfg, []);
    }
  }

  lemma FeedStreamClosed(cfg: Config, s: State, rec: Record)
    requires Growing(cfg, s.open) && !rec.kind.Snapshot?
    requires FeedStream(s.(open := WithoutChunk(s.open)), rec).Ok?
    ensures var (s1, units) := FeedStream(s.(open := WithoutChunk(s.open)), rec).value;
      Growing(cfg, s1.open) && s1.deferred == s.deferred && AllClosed(cfg, CloseChunk(s.open, true) + units, OpenRecords(s1.open))
  {
    var s0 := s.(open := WithoutChunk(s.open));
    InterruptedClosed(cfg, s.open, rec);
    AssemblerStreams.FeedStreamUnits(s0, rec);
    AssemblerStreams.FeedStreamCovers(s0, rec);
    var (s1, units) := FeedStream(s0, rec).value;
    OthersClosed(cfg, units, OpenRecords(s1.open));
    hide AllClosed, FeedStream, Covered;
    AllClosedJoin(cfg, CloseChunk(s.open, true), if s.open.InChunk? then [rec] else [], units, OpenRecords(s1.open));
  }

  lemma FeedRecordClosed(cfg: Config, s: State, rec: Record)
    requires Growing(cfg, s.open) && !rec.kind.Snapshot? && FeedRecord(cfg, s, rec).Ok?
    requires forall r :: r in s.deferred ==> r.kind.Snapshot?
    ensures var (s1, units) := FeedRecord(cfg, s, rec).value; Growing(cfg, s1.open) && AllClosed(cfg, units, OpenRecords(s1.open))
  {
    hide Growing, AllClosed, FeedStream, Flush, Covered;
    FeedStreamClosed(cfg, s, rec);
    var (s1, u1) := FeedStream(s.(open := WithoutChunk(s.open)), rec).value;
    if !s1.open.InTxn? {
      NotChunk(s, rec);
      FlushClosed(cfg, s1.(deferred := []), s1.deferred);
      var (s2, u2) := Flush(cfg, s1.(deferred := []), s1.deferred).value;
      AllClosedJoin(cfg, CloseChunk(s.open, true) + u1, OpenRecords(s1.open), u2, OpenRecords(s2.open));
    }
  }

  lemma NotChunk(s: State, rec: Record)
    requires !rec.kind.Snapshot? && FeedStream(s.(open := WithoutChunk(s.open)), rec).Ok?
    ensures !FeedStream(s.(open := WithoutChunk(s.open)), rec).value.0.open.InChunk?
  {
    AssemblerStreams.FeedStreamUnits(s.(open := WithoutChunk(s.open)), rec);
  }

  lemma BoundaryClosed(cfg: Config, s: State, rec: Record)
    requires Growing(cfg, s.open) && FeedBoundary(s, rec).Ok?
    ensures var (s1, units) := FeedBoundary(s, rec).value; Growing(cfg, s1.open) && AllClosed(cfg, units, OpenRecords(s1.open))
  {
    InterruptedClosed(cfg, s.open, rec);
    OthersClosed(cfg, [ControlUnit(rec)], []);
    CoveredNone();
    assert Covered([ControlUnit(rec)]) == [rec] + Covered([]);
    hide AllClosed, Covered;
    AllClosedJoin(cfg, CloseChunk(s.open, true), if s.open.InChunk? then [rec] else [], [ControlUnit(rec)], []);
  }

  lemma StepClosed(cfg: Config, s: State, input: Input)
    requires Growing(cfg, s.open) && Step(cfg, s, input).Ok? && forall r :: r in s.deferred ==> r.kind.Snapshot?
    ensures var (s1, units) := Step(cfg, s, input).value; Growing(cfg, s1.open) && AllClosed(cfg, units, OpenRecords(s1.open))
  {
    hide Growing, AllClosed, FeedSnapshot;
    var rec := input.rec;
    if input.Boundary? {
      BoundaryClosed(cfg, s, rec);
    } else if !rec.kind.Snapshot? {
      FeedRecordClosed(cfg, s, rec);
    } else if s.open.InTxn? {
      NoneClosed(cfg, OpenRecords(s.open));
      StillGrowing(cfg, s.open);
    } else {
      FeedSnapshotClosed(cfg, s, rec);
    }
  }

  lemma StillGrowing(cfg: Config, open: Open)
    requires !open.InChunk?
    ensures Growing(cfg, open)
  {
  }

  // ---------------------------------------------------------------------------
  // Every run
  // ---------------------------------------------------------------------------

  /** Over every accepted run: each emitted chunk closed when, and only when, its final row was
      marked last, filled it, or was followed by a record that does not continue it; it claims
      its table exactly as `Closed` says; and the chunk still open has met none of these. */
  lemma {:induction false} ChunksClaim(cfg: Config, inputs: seq<Input>)
    ensures var Outcome(units, last) := Run(cfg, INITIAL, inputs);
      last.Ok? ==> AllClosed(cfg, units, OpenRecords(last.value.open)) && Growing(cfg, last.value.open) &&
                   Sound(last.value) && AssemblerStreams.Tidy(last.value)
    decreases |inputs|
  {
    hide Step, AllClosed, Growing, Sound, Covered, OpenRecords;
    if inputs == [] {
      NoneClosed(cfg, OpenRecords(Idle));
      StillGrowing(cfg, Idle);
      FreshSound();
    } else {
      var front, x := inputs[..|inputs| - 1], inputs[|inputs| - 1];
      assert inputs == front + [x];
      ChunksClaim(cfg, front);
      RunOneMore(cfg, INITIAL, front, x);
      var before := Run(cfg, INITIAL, front);
      hide Run;
      if before.last.Ok? && Step(cfg, before.last.value, x).Ok? {
        var s := before.last.value;
        var (s1, u1) := Step(cfg, s, x).value;
        Deferring(s);
        StepSound(cfg, s, x);
        StepClosed(cfg, s, x);
        AssemblerStreams.StepCovers(cfg, s, x);
        AllClosedJoin(cfg, before.units, OpenRecords(s.open), u1, OpenRecords(s1.open));
      }
    }
  }

  lemma FreshSound()
    ensures Sound(INITIAL)
  {
  }

  lemma Deferring(s: State)
    requires Sound(s)
    ensures forall r :: r in s.deferred ==> r.kind.Snapshot?
  {
  }
}
