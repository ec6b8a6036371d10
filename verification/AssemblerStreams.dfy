/** The assembler against its whole input stream: conservation and order, replay after a
    cut, and the shape of snapshot chunks. */
module AssemblerStreams {
  import opened Options
  import opened Records
  import opened AssemblerSpec
  import opened AssemblerProofs

  /** Reads are only ever deferred behind an open transaction. */
  ghost predicate Tidy(s: State) {
    s.deferred != [] ==> s.open.InTxn?
  }

  // ---------------------------------------------------------------------------
  // Conservation: nothing lost, nothing duplicated, one permitted reordering
  // ---------------------------------------------------------------------------

  /** Whether a transaction is open after `rec`, told from the record kinds alone. */
  ghost predicate OpenAfter(open: bool, rec: Record) {
    rec.kind.TxnBegin? || Counts(rec) || (open && !rec.kind.TxnEnd?)
  }

  /** What one record lets out, given the reads held back so far: the record and, once no
      transaction is open, everything held. A read inside a transaction is held instead. */
  ghost function Released(open: bool, held: seq<Record>, rec: Record): seq<Record> {
    if rec.kind.Snapshot? && open then []
    else if OpenAfter(open, rec) then [rec]
    else [rec] + held
  }

  ghost function HeldAfter(open: bool, held: seq<Record>, rec: Record): seq<Record> {
    if rec.kind.Snapshot? && open then held + [rec]
    else if OpenAfter(open, rec) then held
    else []
  }

  /** The input with every snapshot read that arrived inside a transaction moved to just
      after that transaction's END, in arrival order; reads still held come last. */
  ghost function Resequenced(open: bool, held: seq<Record>, recs: seq<Record>): seq<Record>
    decreases |recs|
  {
    if recs == [] then held else
      Released(open, held, recs[0])
      + Resequenced(OpenAfter(open, recs[0]), HeldAfter(open, held, recs[0]), recs[1..])
  }

  ghost function Inputs(inputs: seq<Input>): seq<Record> {
    seq(|inputs|, i requires 0 <= i < |inputs| => inputs[i].rec)
  }

  /** Two consecutive steps: what the first leaves open, the second starts from. */
  lemma Chain(before: seq<Record>, in1: seq<Record>, out1: seq<Record>, mid: seq<Record>,
              in2: seq<Record>, out2: seq<Record>, after: seq<Record>)
    requires out1 + mid == before + in1 && out2 + after == mid + in2
    ensures (out1 + out2) + after == before + (in1 + in2)
  {
    assert (out1 + out2) + after == out1 + (out2 + after);
    assert out1 + (mid + in2) == (out1 + mid) + in2;
    assert (before + in1) + in2 == before + (in1 + in2);
  }

  lemma {:induction false} FlushCovers(cfg: Config, s: State, queue: seq<Record>)
    requires !s.open.InTxn? && Flush(cfg, s, queue).Ok?
    ensures var (s1, u1) := Flush(cfg, s, queue).value;
      Covered(u1) + OpenRecords(s1.open) == OpenRecords(s.open) + queue && s1.deferred == s.deferred
    decreases |queue|
  {
    if queue != [] {
      var (s1, u1) := FeedSnapshot(cfg, s, queue[0]).value;
      FeedSnapshotCovers(cfg, s, queue[0]);
      FlushCovers(cfg, s1, queue[1..]);
      var (s2, u2) := Flush(cfg, s1, queue[1..]).value;
      CoveredAppend(u1, u2);
      Chain(OpenRecords(s.open), [queue[0]], Covered(u1), OpenRecords(s1.open), queue[1..],
            Covered(u2), OpenRecords(s2.open));
      assert [queue[0]] + queue[1..] == queue;
    }
  }

  lemma FeedSnapshotCovers(cfg: Config, s: State, rec: Record)
    requires !s.open.InTxn? && FeedSnapshot(cfg, s, rec).Ok?
    ensures var (s1, u1) := FeedSnapshot(cfg, s, rec).value;
      Covered(u1) + OpenRecords(s1.open) == OpenRecords(s.open) + [rec] &&
      s1.deferred == s.deferred && !s1.open.InTxn?
  {
    var (s1, u1) := FeedSnapshot(cfg, s, rec).value;
    var closed := Displaced(s.open, rec);
    CoveredAppend(closed, u1[|closed|..]);
    assert u1 == closed + u1[|closed|..];
    assert Covered([]) == [];
    if closed != [] { assert Covered(closed) == OpenRecords(s.open) + Covered([]); }
    if s1.open.Idle? { assert Covered(u1[|closed|..]) == RecordsOf(u1[|closed|]) + Covered([]); }
  }

  lemma FeedStreamCovers(s: State, rec: Record)
    requires !s.open.InChunk? && !rec.kind.Snapshot? && FeedStream(s, rec).Ok?
    ensures var (s1, u1) := FeedStream(s, rec).value;
      Covered(u1) + OpenRecords(s1.open) == OpenRecords(s.open) + [rec] &&
      s1.deferred == s.deferred && !s1.open.InChunk? &&
      s1.open.InTxn? == OpenAfter(s.open.InTxn?, rec)
  {
    var (s1, u1) := FeedStream(s, rec).value;
    assert Covered([]) == [];
    if u1 != [] { assert Covered(u1) == RecordsOf(u1[0]) + Covered([]); }
  }

  lemma FeedRecordCovers(cfg: Config, s: State, rec: Record)
    requires Tidy(s) && !rec.kind.Snapshot? && FeedRecord(cfg, s, rec).Ok?
    ensures var (s1, u1) := FeedRecord(cfg, s, rec).value;
      Covered(u1) + OpenRecords(s1.open) == OpenRecords(s.open) + Released(s.open.InTxn?, s.deferred, rec) &&
      s1.open.InTxn? == OpenAfter(s.open.InTxn?, rec) &&
      s1.deferred == HeldAfter(s.open.InTxn?, s.deferred, rec)
  {
    var closed := CloseChunk(s.open, true);
    CloseCovers(s.open);
    var s0 := s.(open := WithoutChunk(s.open));
    FeedStreamCovers(s0, rec);
    var (s2, u2) := FeedStream(s0, rec).value;
    CoveredAppend(closed, u2);
    Chain(OpenRecords(s.open), [], Covered(closed), OpenRecords(s0.open), [rec], Covered(u2), OpenRecords(s2.open));
    assert [] + [rec] == [rec];
    if !s2.open.InTxn? {
      FlushCovers(cfg, s2.(deferred := []), s2.deferred);
      var (s3, u3) := Flush(cfg, s2.(deferred := []), s2.deferred).value;
      CoveredAppend(closed + u2, u3);
      Chain(OpenRecords(s.open), [rec], Covered(closed + u2), OpenRecords(s2.open), s.deferred,
            Covered(u3), OpenRecords(s3.open));
    }
  }

  lemma CloseCovers(open: Open)
    ensures Covered(CloseChunk(open, true)) + OpenRecords(WithoutChunk(open)) == OpenRecords(open)
  {
    assert Covered([]) == [];
    if open.InChunk? {
      assert Covered(CloseChunk(open, true)) == OpenRecords(open) + Covered([]);
    }
  }

  lemma BoundaryCovers(s: State, rec: Record)
    requires Tidy(s) && FeedBoundary(s, rec).Ok?
    ensures var (s1, u1) := FeedBoundary(s, rec).value;
      Covered(u1) + OpenRecords(s1.open) == OpenRecords(s.open) + Released(s.open.InTxn?, s.deferred, rec) &&
      s1.open.InTxn? == OpenAfter(s.open.InTxn?, rec) &&
      s1.deferred == HeldAfter(s.open.InTxn?, s.deferred, rec) && Tidy(s1)
  {
    CloseCovers(s.open);
    CoveredAppend(CloseChunk(s.open, true), [ControlUnit(rec)]);
    assert Covered([ControlUnit(rec)]) == [rec] + Covered([]);
  }

  lemma StepCovers(cfg: Config, s: State, input: Input)
    requires Tidy(s) && Step(cfg, s, input).Ok?
    ensures var (s1, u1) := Step(cfg, s, input).value;
      Covered(u1) + OpenRecords(s1.open) == OpenRecords(s.open) + Released(s.open.InTxn?, s.deferred, input.rec) &&
      s1.open.InTxn? == OpenAfter(s.open.InTxn?, input.rec) &&
      s1.deferred == HeldAfter(s.open.InTxn?, s.deferred, input.rec) && Tidy(s1)
  {
    hide FeedRecord, FeedBoundary, Covered, OpenRecords;
    var rec := input.rec;
    if input.Boundary? {
      BoundaryCovers(s, rec);
    } else if !rec.kind.Snapshot? {
      FeedRecordCovers(cfg, s, rec);
    } else {
      ReadCovers(cfg, s, rec);
    }
  }

  /** A snapshot record joins a chunk, or is held behind the open transaction. */
  lemma ReadCovers(cfg: Config, s: State, rec: Record)
    requires Tidy(s) && rec.kind.Snapshot? && FeedRecord(cfg, s, rec).Ok?
    ensures var (s1, u1) := FeedRecord(cfg, s, rec).value;
      Covered(u1) + OpenRecords(s1.open) == OpenRecords(s.open) + Released(s.open.InTxn?, s.deferred, rec) &&
      s1.open.InTxn? == OpenAfter(s.open.InTxn?, rec) &&
      s1.deferred == HeldAfter(s.open.InTxn?, s.deferred, rec)
  {
    CoveredNone();
    if !s.open.InTxn? {
      FeedSnapshotCovers(cfg, s, rec);
    }
    hide FeedSnapshot, Covered, OpenRecords;
  }

  /** Conservation and order: the records of the emitted units, then of the open unit,
      then the reads still deferred, are the input, resequenced and nothing else. */
  lemma {:induction false} RunConserves(cfg: Config, s: State, inputs: seq<Input>)
    requires Tidy(s) && Run(cfg, s, inputs).last.Ok?
    ensures var Outcome(units, last) := Run(cfg, s, inputs);
      Covered(units) + (OpenRecords(last.value.open) + last.value.deferred)
      == OpenRecords(s.open) + Resequenced(s.open.InTxn?, s.deferred, Inputs(inputs))
    decreases |inputs|
  {
    hide Step, Covered, OpenRecords, Released, HeldAfter, OpenAfter;
    if inputs == [] {
      CoveredNone();
      assert OpenRecords(s.open) + s.deferred == [] + (OpenRecords(s.open) + s.deferred);
      assert Inputs(inputs) == [];
    } else {
      var (s1, u1) := Step(cfg, s, inputs[0]).value;
      StepCovers(cfg, s, inputs[0]);
      RunConserves(cfg, s1, inputs[1..]);
      assert Inputs(inputs) == [inputs[0].rec] + Inputs(inputs[1..]);
      var rest := Run(cfg, s1, inputs[1..]);
      CoveredAppend(u1, rest.units);
      var tail := Resequenced(s1.open.InTxn?, s1.deferred, Inputs(inputs[1..]));
      Chain(OpenRecords(s.open), Released(s.open.InTxn?, s.deferred, inputs[0].rec), Covered(u1),
            OpenRecords(s1.open), tail, Covered(rest.units),
            OpenRecords(rest.last.value.open) + rest.last.value.deferred);
    }
  }

  /** Resequencing neither loses nor duplicates a record. */
  lemma {:induction false} ResequencedPermutes(open: bool, held: seq<Record>, recs: seq<Record>)
    ensures multiset(Resequenced(open, held, recs)) == multiset(held) + multiset(recs)
    decreases |recs|
  {
    if recs != [] {
      assert recs == [recs[0]] + recs[1..];
      ResequencedPermutes(OpenAfter(open, recs[0]), HeldAfter(open, held, recs[0]), recs[1..]);
      assert multiset(Released(open, held, recs[0])) + multiset(HeldAfter(open, held, recs[0]))
          == multiset(held) + multiset([recs[0]]);
    }
  }

  /** Without snapshot reads nothing moves. */
  lemma {:induction false} StreamingKeepsOrder(open: bool, recs: seq<Record>)
    requires forall r :: r in recs ==> !r.kind.Snapshot?
    ensures Resequenced(open, [], recs) == recs
    decreases |recs|
  {
    if recs != [] {
      StreamingKeepsOrder(OpenAfter(open, recs[0]), recs[1..]);
      assert recs == [recs[0]] + recs[1..];
    }
  }

  /** Every accepted run from a fresh assembler covers exactly its input. */
  lemma NothingLostOrDuplicated(cfg: Config, inputs: seq<Input>)
    requires Run(cfg, INITIAL, inputs).last.Ok?
    ensures var Outcome(units, last) := Run(cfg, INITIAL, inputs);
      multiset(Covered(units) + (OpenRecords(last.value.open) + last.value.deferred)) == multiset(Inputs(inputs))
  {
    hide Run, Covered, OpenRecords, Resequenced;
    RunConserves(cfg, INITIAL, inputs);
    ResequencedPermutes(false, [], Inputs(inputs));
    var Outcome(units, last) := Run(cfg, INITIAL, inputs);
    OpenRecordsIdle();
    assert [] + Resequenced(false, [], Inputs(inputs)) == Resequenced(false, [], Inputs(inputs));
  }

  lemma OpenRecordsIdle()
    ensures OpenRecords(Idle) == []
  {
  }

  /** While a transaction is open the only thing that can be emitted is that transaction,
      by its own END, and it comes first: no control record, message or chunk overtakes a
      half-buffered transaction. */
  lemma NothingOvertakes(cfg: Config, s: State, input: Input)
    requires s.open.InTxn?
    ensures var r := Step(cfg, s, input);
      r.Ok? && r.value.1 != [] ==>
        input.rec.kind.TxnEnd? && !r.value.0.open.InTxn? && r.value.0.deferred == [] &&
        r.value.1[0] == TxnUnit(s.open.txn.id, s.open.txn.events, s.open.txn.records + [input.rec]) &&
        forall i :: 1 <= i < |r.value.1| ==> r.value.1[i].ChunkUnit?
  {
    var rec := input.rec;
    if input.Feed? && !rec.kind.Snapshot? && Step(cfg, s, input).Ok? {
      assert s.(open := WithoutChunk(s.open)) == s;
      var (s2, u2) := FeedStream(s, rec).value;
      if !s2.open.InTxn? {
        FlushEmitsChunks(cfg, s2.(deferred := []), s2.deferred);
      }
    }
  }

  lemma {:induction false} FlushEmitsChunks(cfg: Config, s: State, queue: seq<Record>)
    requires !s.open.InTxn? && Flush(cfg, s, queue).Ok?
    ensures var (s1, u1) := Flush(cfg, s, queue).value;
      s1.deferred == s.deferred && forall u :: u in u1 ==> u.ChunkUnit?
    decreases |queue|
  {
    if queue != [] {
      FlushEmitsChunks(cfg, FeedSnapshot(cfg, s, queue[0]).value.0, queue[1..]);
    }
  }

  // ---------------------------------------------------------------------------
  // Replay: cutting a streaming run anywhere loses and repeats nothing
  // ---------------------------------------------------------------------------

  ghost predicate Streaming(inputs: seq<Input>) {
    forall i :: i in inputs ==> i.Feed? && !i.rec.kind.Snapshot?
  }

  lemma StreamingStep(cfg: Config, s: State, input: Input)
    requires input.Feed? && !input.rec.kind.Snapshot?
    requires s.deferred == [] && s.snaps == [] && !s.open.InChunk? && Step(cfg, s, input).Ok?
    ensures var (s1, u1) := Step(cfg, s, input).value;
      s1.deferred == [] && s1.snaps == [] && !s1.open.InChunk? && (u1 != [] ==> s1 == INITIAL)
  {
    assert s.(open := WithoutChunk(s.open)) == s;
    var (s1, u1) := FeedStream(s, input.rec).value;
    FeedStreamCovers(s, input.rec);
    assert !s1.open.InTxn? ==> s1.(deferred := []) == s1;
    assert [] + u1 + [] == u1;
  }

  /** The records not covered by an emitted unit are a suffix, and they alone rebuild the
      open unit; everything before them leaves a fresh assembler. */
  lemma {:induction false} UncoveredIsSuffix(cfg: Config, inputs: seq<Input>)
    requires Streaming(inputs) && Run(cfg, INITIAL, inputs).last.Ok?
    ensures var Outcome(units, last) := Run(cfg, INITIAL, inputs);
      var c := |Covered(units)|;
      var s := last.value;
      s.deferred == [] && s.snaps == [] && !s.open.InChunk? &&
      c <= |inputs| && Run(cfg, INITIAL, inputs[..c]) == Outcome(units, Ok(INITIAL)) &&
      Run(cfg, INITIAL, inputs[c..]) == Outcome([], last)
    decreases |inputs|
  {
    if inputs == [] {
      assert inputs[..0] == [] == inputs[0..];
    } else {
      var n := |inputs| - 1;
      var pre := inputs[..n];
      assert inputs == pre + [inputs[n]];
      RunOneMore(cfg, INITIAL, pre, inputs[n]);
      hide Run, Step, Covered, Resequenced, OpenRecords;
      UncoveredIsSuffix(cfg, pre);
      var Outcome(units0, last0) := Run(cfg, INITIAL, pre);
      var (s, u) := Step(cfg, last0.value, inputs[n]).value;
      StreamingStep(cfg, last0.value, inputs[n]);
      if u == [] {
        assert units0 + u == units0;
        SuffixGrows(cfg, pre, inputs[n], |Covered(units0)|, last0.value);
      } else {
        AllCovered(cfg, inputs);
        assert inputs[..|inputs|] == inputs && inputs[|inputs|..] == [];
        assert Run(cfg, INITIAL, []) == Outcome([], Ok(INITIAL)) by { RunNone(cfg, INITIAL); }
      }
    }
  }

  /** A record that lets nothing out joins the uncovered suffix. */
  lemma SuffixGrows(cfg: Config, pre: seq<Input>, x: Input, c: nat, s: State)
    requires c <= |pre| && Run(cfg, INITIAL, pre[c..]) == Outcome([], Ok(s))
    requires Step(cfg, s, x).Ok? && Step(cfg, s, x).value.1 == []
    ensures (pre + [x])[..c] == pre[..c]
    ensures Run(cfg, INITIAL, (pre + [x])[c..]) == Outcome([], Ok(Step(cfg, s, x).value.0))
  {
    assert (pre + [x])[c..] == pre[c..] + [x];
    hide Run, Step;
    RunOneMore(cfg, INITIAL, pre[c..], x);
  }

  lemma RunNone(cfg: Config, s: State)
    ensures Run(cfg, s, []) == Outcome([], Ok(s))
  {
  }

  /** A streaming run that ends with nothing open has covered its whole input. */
  lemma AllCovered(cfg: Config, inputs: seq<Input>)
    requires Streaming(inputs) && Run(cfg, INITIAL, inputs).last == Ok(INITIAL)
    ensures |Covered(Run(cfg, INITIAL, inputs).units)| == |inputs|
  {
    hide Run, Covered, Resequenced;
    RunConserves(cfg, INITIAL, inputs);
    StreamingKeepsOrder(false, Inputs(inputs));
  }

  /** Any number of crashes: each session feeds some prefix of what is left, discards its
      open unit, and the next starts a fresh assembler at the first uncovered record. */
  ghost function Sessions(cfg: Config, inputs: seq<Input>, cuts: seq<nat>): Outcome
    decreases |cuts|
  {
    if cuts == [] then Run(cfg, INITIAL, inputs) else
      var k := if cuts[0] < |inputs| then cuts[0] else |inputs|;
      var first := Run(cfg, INITIAL, inputs[..k]);
      var c := |Covered(first.units)|;
      if first.last.Err? || c > |inputs| then first else
        var rest := Sessions(cfg, inputs[c..], cuts[1..]);
        Outcome(first.units + rest.units, rest.last)
  }

  /** One cut: a fresh assembler fed from the first uncovered record finishes the run. */
  lemma OneCut(cfg: Config, inputs: seq<Input>, k: nat)
    requires Streaming(inputs) && k <= |inputs| && Run(cfg, INITIAL, inputs[..k]).last.Ok?
    ensures var first := Run(cfg, INITIAL, inputs[..k]);
      var c := |Covered(first.units)|;
      c <= k &&
      var rest := Run(cfg, INITIAL, inputs[c..]);
      Run(cfg, INITIAL, inputs) == Outcome(first.units + rest.units, rest.last)
  {
    hide Covered, Run;
    UncoveredIsSuffix(cfg, inputs[..k]);
    var c := |Covered(Run(cfg, INITIAL, inputs[..k]).units)|;
    assert inputs[..k][..c] == inputs[..c];
    assert inputs == inputs[..c] + inputs[c..];
    RunAppend(cfg, INITIAL, inputs[..c], inputs[c..]);
  }

  /** Replay safety: however often and wherever a streaming run is cut, the units of all
      its sessions together, and the verdict, are those of the uninterrupted run. */
  lemma {:induction false} ReplaySafe(cfg: Config, inputs: seq<Input>, cuts: seq<nat>)
    requires Streaming(inputs)
    ensures Sessions(cfg, inputs, cuts) == Run(cfg, INITIAL, inputs)
    decreases |cuts|
  {
    hide Run, Covered;
    if cuts != [] {
      var k := if cuts[0] < |inputs| then cuts[0] else |inputs|;
      var first := Run(cfg, INITIAL, inputs[..k]);
      if first.last.Ok? {
        OneCut(cfg, inputs, k);
        ReplaySafe(cfg, inputs[|Covered(first.units)|..], cuts[1..]);
      } else {
        assert inputs == inputs[..k] + inputs[k..];
        RunAppend(cfg, INITIAL, inputs[..k], inputs[k..]);
      }
    }
  }

  // ---------------------------------------------------------------------------
  // Snapshot chunks
  // ---------------------------------------------------------------------------

  /** The k-th snapshot record of a table, in delivery order, has ordinal k. */
  ghost function Numbered(snaps: seq<Record>): seq<Event> {
    if snaps == [] then [] else
      var last := snaps[|snaps| - 1];
      Numbered(snaps[..|snaps| - 1]) + [Event(last, Seen(snaps, TableKey(last)))]
  }

  ghost function ChunkEvents(units: seq<Unit>): seq<Event> {
    if units == [] then [] else
      (if units[0].ChunkUnit? then units[0].chunk.events else []) + ChunkEvents(units[1..])
  }

  ghost function OpenChunkEvents(open: Open): seq<Event> {
    if open.InChunk? then open.chunk.events else []
  }

  /** A closed chunk is nonempty, of one relation and one mode, within the configured
      event limit, and a `last` mark can only be on its final record. */
  ghost predicate ChunkShaped(cfg: Config, chunk: Chunk) {
    ChunkSound(chunk) && (|chunk.events| == 1 || |chunk.events| <= cfg.chunkEvents) &&
    forall i :: 0 <= i < |chunk.events| - 1 ==> !TableLast(chunk.events[i].rec)
  }

  ghost predicate OpenShaped(cfg: Config, open: Open) {
    open.InChunk? ==>
      ChunkShaped(cfg, open.chunk) && !Full(cfg, open.chunk) &&
      forall e :: e in open.chunk.events ==> !TableLast(e.rec)
  }

  ghost predicate UnitShaped(cfg: Config, u: Unit) {
    u.ChunkUnit? ==>
      ChunkShaped(cfg, u.chunk) &&
      (TableLast(u.chunk.records[|u.chunk.records| - 1]) ==> u.tableDone)
  }

  ghost predicate AllShaped(cfg: Config, units: seq<Unit>) {
    forall u :: u in units ==> UnitShaped(cfg, u)
  }

  /** The state invariant of the snapshot phase, and the snapshot events numbered so far. */
  ghost predicate Numbers(s: State, shown: seq<Event>) {
    shown + OpenChunkEvents(s.open) == Numbered(s.snaps)
  }

  lemma {:induction false} ChunkEventsAppend(a: seq<Unit>, b: seq<Unit>)
    ensures ChunkEvents(a + b) == ChunkEvents(a) + ChunkEvents(b)
  {
    if a == [] {
      assert a + b == b;
    } else {
      assert (a + b)[1..] == a[1..] + b;
      ChunkEventsAppend(a[1..], b);
    }
  }

  lemma FeedSnapshotShaped(cfg: Config, s: State, rec: Record)
    requires OpenShaped(cfg, s.open) && !s.open.InTxn? && rec.kind.Snapshot? && FeedSnapshot(cfg, s, rec).Ok?
    ensures var (s1, u1) := FeedSnapshot(cfg, s, rec).value; OpenShaped(cfg, s1.open) && AllShaped(cfg, u1)
  {
    hide SumBytes, Seen;
    var chunk := Grown(s, rec);
    var before := if Continues(s.open, rec) then s.open.chunk.events else [];
    assert RecsOf(chunk.events) == RecsOf(before) + [rec];
    assert forall i :: 0 <= i < |before| ==> chunk.events[i] == before[i] && before[i] in before;
    assert ChunkShaped(cfg, chunk);
    if s.open.InChunk? {
      var records := s.open.chunk.records;
      assert records[|records| - 1] == s.open.chunk.events[|records| - 1].rec;
    }
  }

  lemma {:induction false} FlushShaped(cfg: Config, s: State, queue: seq<Record>)
    requires OpenShaped(cfg, s.open) && !s.open.InTxn?
    requires (forall r :: r in queue ==> r.kind.Snapshot?) && Flush(cfg, s, queue).Ok?
    ensures var (s1, u1) := Flush(cfg, s, queue).value; OpenShaped(cfg, s1.open) && AllShaped(cfg, u1)
    decreases |queue|
  {
    if queue != [] {
      FeedSnapshotShaped(cfg, s, queue[0]);
      FlushShaped(cfg, FeedSnapshot(cfg, s, queue[0]).value.0, queue[1..]);
    }
  }

  lemma CloseShaped(cfg: Config, open: Open)
    requires OpenShaped(cfg, open)
    ensures AllShaped(cfg, CloseChunk(open, true))
  {
  }

  lemma FeedStreamUnits(s: State, rec: Record)
    requires !s.open.InChunk? && !rec.kind.Snapshot? && FeedStream(s, rec).Ok?
    ensures var (s1, u1) := FeedStream(s, rec).value;
      ChunkEvents(u1) == [] && (forall u :: u in u1 ==> !u.ChunkUnit?) &&
      !s1.open.InChunk? && s1.deferred == s.deferred && s1.snaps == s.snaps
  {
    var (s1, u1) := FeedStream(s, rec).value;
    hide Incomplete, Ordinals;
    OneChunkEvents(u1);
  }

  lemma StepShaped(cfg: Config, s: State, input: Input)
    requires OpenShaped(cfg, s.open) && Step(cfg, s, input).Ok?
    requires forall r :: r in s.deferred ==> r.kind.Snapshot?
    ensures var (s1, u1) := Step(cfg, s, input).value; OpenShaped(cfg, s1.open) && AllShaped(cfg, u1)
  {
    var rec := input.rec;
    CloseShaped(cfg, s.open);
    if input.Feed? && !rec.kind.Snapshot? {
      var s0 := s.(open := WithoutChunk(s.open));
      FeedStreamUnits(s0, rec);
      var (s2, u2) := FeedStream(s0, rec).value;
      if !s2.open.InTxn? {
        FlushShaped(cfg, s2.(deferred := []), s2.deferred);
      }
    } else if input.Feed? && !s.open.InTxn? {
      FeedSnapshotShaped(cfg, s, rec);
    }
  }

  lemma {:induction false} RunShaped(cfg: Config, s: State, inputs: seq<Input>)
    requires Sound(s) && OpenShaped(cfg, s.open)
    ensures AllShaped(cfg, Run(cfg, s, inputs).units)
    decreases |inputs|
  {
    if inputs != [] && Step(cfg, s, inputs[0]).Ok? {
      StepSound(cfg, s, inputs[0]);
      StepShaped(cfg, s, inputs[0]);
      RunShaped(cfg, Step(cfg, s, inputs[0]).value.0, inputs[1..]);
    }
  }

  // ---------------------------------------------------------------------------
  // Snapshot ordinals
  // ---------------------------------------------------------------------------

  lemma Assoc(a: seq<Event>, b: seq<Event>, c: seq<Event>)
    ensures (a + b) + c == a + (b + c)
  {
  }

  lemma FeedSnapshotShows(cfg: Config, s: State, rec: Record)
    requires !s.open.InTxn? && FeedSnapshot(cfg, s, rec).Ok?
    ensures var (s1, u1) := FeedSnapshot(cfg, s, rec).value;
      ChunkEvents(u1) + OpenChunkEvents(s1.open)
      == OpenChunkEvents(s.open) + [Event(rec, Seen(s.snaps, TableKey(rec)) + 1)]
  {
    var (s1, u1) := FeedSnapshot(cfg, s, rec).value;
    var closed := Displaced(s.open, rec);
    var last := if s1.open.Idle? then [ChunkUnit(Grown(s, rec), TableLast(rec))] else [];
    assert u1 == closed + last && (s1.open.InChunk? ==> s1.open.chunk == Grown(s, rec));
    DisplacedShows(s, rec);
    hide FeedSnapshot, Grown, Displaced, Seen;
    ChunkEventsAppend(closed, last);
    OneChunkEvents(last);
    assert ChunkEvents(last) + OpenChunkEvents(s1.open) == Grown(s, rec).events;
    Assoc(ChunkEvents(closed), ChunkEvents(last), OpenChunkEvents(s1.open));
  }

  /** What a snapshot record closes and the chunk it joins hold the open chunk's events
      and its own. */
  lemma DisplacedShows(s: State, rec: Record)
    ensures ChunkEvents(Displaced(s.open, rec)) + Grown(s, rec).events
         == OpenChunkEvents(s.open) + [Event(rec, Seen(s.snaps, TableKey(rec)) + 1)]
  {
    hide Seen;
    OneChunkEvents(Displaced(s.open, rec));
  }

  lemma OneChunkEvents(units: seq<Unit>)
    requires |units| <= 1
    ensures ChunkEvents(units) == if units != [] && units[0].ChunkUnit? then units[0].chunk.events else []
  {
    if units != [] {
      assert ChunkEvents(units[1..]) == [];
    }
  }

  lemma NumberedOne(snaps: seq<Record>, rec: Record)
    ensures Numbered(snaps + [rec]) == Numbered(snaps) + [Event(rec, Seen(snaps, TableKey(rec)) + 1)]
  {
    assert (snaps + [rec])[..|snaps|] == snaps;
  }

  lemma FeedSnapshotNumbers(cfg: Config, s: State, rec: Record, shown: seq<Event>)
    requires !s.open.InTxn? && FeedSnapshot(cfg, s, rec).Ok? && Numbers(s, shown)
    ensures var (s1, u1) := FeedSnapshot(cfg, s, rec).value; Numbers(s1, shown + ChunkEvents(u1))
  {
    var (s1, u1) := FeedSnapshot(cfg, s, rec).value;
    var event := Event(rec, Seen(s.snaps, TableKey(rec)) + 1);
    assert s1.snaps == s.snaps + [rec];
    hide FeedSnapshot, ChunkEvents, OpenChunkEvents;
    NumberedOne(s.snaps, rec);
    FeedSnapshotShows(cfg, s, rec);
    Assoc(shown, ChunkEvents(u1), OpenChunkEvents(s1.open));
    Assoc(shown, OpenChunkEvents(s.open), [event]);
  }

  lemma {:induction false} FlushNumbers(cfg: Config, s: State, queue: seq<Record>, shown: seq<Event>)
    requires !s.open.InTxn? && Numbers(s, shown) && Flush(cfg, s, queue).Ok?
    ensures var (s1, u1) := Flush(cfg, s, queue).value; Numbers(s1, shown + ChunkEvents(u1))
    decreases |queue|
  {
    if queue == [] {
      assert shown + [] == shown;
    } else {
      var (s1, u1) := FeedSnapshot(cfg, s, queue[0]).value;
      FeedSnapshotNumbers(cfg, s, queue[0], shown);
      FlushNumbers(cfg, s1, queue[1..], shown + ChunkEvents(u1));
      var u2 := Flush(cfg, s1, queue[1..]).value.1;
      ChunkEventsAppend(u1, u2);
      Assoc(shown, ChunkEvents(u1), ChunkEvents(u2));
    }
  }

  /** Closing the open chunk moves its events from open to shown. */
  lemma CloseNumbers(s: State, shown: seq<Event>)
    requires Numbers(s, shown)
    ensures Numbers(s.(open := WithoutChunk(s.open)), shown + ChunkEvents(CloseChunk(s.open, true)))
  {
    assert ChunkEvents([]) == [];
    if s.open.InChunk? {
      assert ChunkEvents(CloseChunk(s.open, true)) == OpenChunkEvents(s.open) + ChunkEvents([]);
    }
  }

  lemma StepNumbers(cfg: Config, s: State, input: Input, shown: seq<Event>)
    requires Numbers(s, shown) && Step(cfg, s, input).Ok?
    ensures var (s1, u1) := Step(cfg, s, input).value; Numbers(s1, shown + ChunkEvents(u1))
  {
    var rec := input.rec;
    var closed := CloseChunk(s.open, true);
    CloseNumbers(s, shown);
    if input.Boundary? {
      ChunkEventsAppend(closed, [ControlUnit(rec)]);
      assert ChunkEvents([ControlUnit(rec)]) == [] + ChunkEvents([]);
    } else if !rec.kind.Snapshot? {
      var s0 := s.(open := WithoutChunk(s.open));
      FeedStreamUnits(s0, rec);
      var (s2, u2) := FeedStream(s0, rec).value;
      ChunkEventsAppend(closed, u2);
      if !s2.open.InTxn? {
        FlushNumbers(cfg, s2.(deferred := []), s2.deferred, shown + ChunkEvents(closed));
        var u3 := Flush(cfg, s2.(deferred := []), s2.deferred).value.1;
        ChunkEventsAppend(closed + u2, u3);
        Assoc(shown, ChunkEvents(closed), ChunkEvents(u3));
      }
    } else if !s.open.InTxn? {
      FeedSnapshotNumbers(cfg, s, rec, shown);
    } else {
      assert shown + [] == shown;
    }
  }

  lemma {:induction false} RunNumbers(cfg: Config, s: State, inputs: seq<Input>, shown: seq<Event>)
    requires Numbers(s, shown) && Run(cfg, s, inputs).last.Ok?
    ensures var Outcome(units, last) := Run(cfg, s, inputs); Numbers(last.value, shown + ChunkEvents(units))
    decreases |inputs|
  {
    if inputs == [] {
      assert shown + [] == shown;
    } else {
      var (s1, u1) := Step(cfg, s, inputs[0]).value;
      StepNumbers(cfg, s, inputs[0], shown);
      RunNumbers(cfg, s1, inputs[1..], shown + ChunkEvents(u1));
      var u2 := Run(cfg, s1, inputs[1..]).units;
      ChunkEventsAppend(u1, u2);
      Assoc(shown, ChunkEvents(u1), ChunkEvents(u2));
    }
  }

  ghost function SnapshotsIn(recs: seq<Record>): seq<Record> {
    if recs == [] then [] else
      (if recs[0].kind.Snapshot? then [recs[0]] else []) + SnapshotsIn(recs[1..])
  }

  lemma {:induction false} SnapshotsInAppend(a: seq<Record>, b: seq<Record>)
    ensures SnapshotsIn(a + b) == SnapshotsIn(a) + SnapshotsIn(b)
  {
    if a == [] {
      assert a + b == b;
    } else {
      assert (a + b)[1..] == a[1..] + b;
      SnapshotsInAppend(a[1..], b);
    }
  }

  lemma {:induction false} SnapshotsInUniform(recs: seq<Record>, snapshot: bool)
    requires forall r :: r in recs ==> r.kind.Snapshot? == snapshot
    ensures SnapshotsIn(recs) == if snapshot then recs else []
  {
    if recs != [] {
      SnapshotsInUniform(recs[1..], snapshot);
      assert recs == [recs[0]] + recs[1..];
    }
  }

  lemma UnitSnapshots(u: Unit)
    requires UnitSound(u)
    ensures SnapshotsIn(RecordsOf(u)) == if u.ChunkUnit? then RecsOf(u.chunk.events) else []
  {
    match u {
      case TxnUnit(id, events, records) =>
        assert records == records[..|records| - 1] + [records[|records| - 1]];
        SnapshotsInUniform(records, false);
      case ChunkUnit(chunk, _) =>
        forall r | r in chunk.records
          ensures r.kind.Snapshot?
        {
          var i :| 0 <= i < |chunk.records| && chunk.records[i] == r;
          assert chunk.events[i] in chunk.events;
        }
        SnapshotsInUniform(chunk.records, true);
      case MessageUnit(rec) => SnapshotsInUniform([rec], false);
      case ControlUnit(rec) => SnapshotsInUniform([rec], false);
    }
  }

  lemma {:induction false} CoveredSnapshots(units: seq<Unit>)
    requires AllSound(units)
    ensures SnapshotsIn(Covered(units)) == RecsOf(ChunkEvents(units))
  {
    if units != [] {
      UnitSnapshots(units[0]);
      CoveredSnapshots(units[1..]);
      SnapshotsInAppend(RecordsOf(units[0]), Covered(units[1..]));
    }
  }

  lemma {:induction false} NumberedRecs(snaps: seq<Record>)
    ensures RecsOf(Numbered(snaps)) == snaps
  {
    if snaps != [] {
      NumberedRecs(snaps[..|snaps| - 1]);
      assert snaps == snaps[..|snaps| - 1] + [snaps[|snaps| - 1]];
    }
  }

  /** Snapshot identity: over every accepted run, whatever the chunk limits or deferrals,
      the snapshot rows emitted (and still open) are the snapshot records covered, in
      order, and the k-th of each table carries ordinal k. */
  lemma SnapshotOrdinals(cfg: Config, inputs: seq<Input>)
    requires Run(cfg, INITIAL, inputs).last.Ok?
    ensures var Outcome(units, last) := Run(cfg, INITIAL, inputs);
      var shown := ChunkEvents(units) + OpenChunkEvents(last.value.open);
      shown == Numbered(RecsOf(shown)) &&
      RecsOf(shown) == SnapshotsIn(Covered(units) + OpenRecords(last.value.open))
  {
    hide Run, Sound, AllSound, Covered, ChunkEvents, Numbered, SnapshotsIn, OpenRecords, OpenChunkEvents;
    InitialReady();
    EveryUnitWhole(cfg, INITIAL, inputs);
    RunNumbers(cfg, INITIAL, inputs, []);
    var Outcome(units, last) := Run(cfg, INITIAL, inputs);
    var closed, open := ChunkEvents(units), OpenChunkEvents(last.value.open);
    assert [] + closed == closed;
    assert closed + open == Numbered(last.value.snaps);
    NumberedRecs(last.value.snaps);
    CoveredSnapshots(units);
    OpenSnapshots(last.value);
    SnapshotsInAppend(Covered(units), OpenRecords(last.value.open));
    RecsOfAppend(closed, open);
  }

  lemma InitialReady()
    ensures Sound(INITIAL) && Numbers(INITIAL, [])
  {
  }

  lemma RecsOfAppend(a: seq<Event>, b: seq<Event>)
    ensures RecsOf(a + b) == RecsOf(a) + RecsOf(b)
  {
  }

  lemma OpenSnapshots(s: State)
    requires Sound(s)
    ensures SnapshotsIn(OpenRecords(s.open)) == RecsOf(OpenChunkEvents(s.open))
  {
    match s.open {
      case Idle =>
      case InTxn(txn) => SnapshotsInUniform(txn.records, false);
      case InChunk(chunk) => UnitSnapshots(ChunkUnit(chunk, true));
    }
  }

  /** Every chunk any run emits is single-table, single-mode and bounded. */
  lemma ChunksBounded(cfg: Config, inputs: seq<Input>)
    ensures forall u :: u in Run(cfg, INITIAL, inputs).units && u.ChunkUnit? ==>
      ChunkShaped(cfg, u.chunk) && (cfg.chunkEvents >= 1 ==> 1 <= |u.chunk.events| <= cfg.chunkEvents)
  {
    RunShaped(cfg, INITIAL, inputs);
    hide Run;
    forall u | u in Run(cfg, INITIAL, inputs).units && u.ChunkUnit?
      ensures ChunkShaped(cfg, u.chunk) && (cfg.chunkEvents >= 1 ==> 1 <= |u.chunk.events| <= cfg.chunkEvents)
    {
      assert UnitShaped(cfg, u);
    }
  }
}
