/** What every run of the assembler guarantees about its whole input stream. */
module AssemblerProofs {
  import opened Options
  import opened Records
  import opened AssemblerSpec

  // ---------------------------------------------------------------------------
  // Runs compose
  // ---------------------------------------------------------------------------

  ghost function Then(cfg: Config, first: Outcome, rest: seq<Input>): Outcome {
    match first.last
    case Err(_) => first
    case Ok(s) => var next := Run(cfg, s, rest); Outcome(first.units + next.units, next.last)
  }

  lemma {:induction false} RunAppend(cfg: Config, s: State, a: seq<Input>, b: seq<Input>)
    ensures Run(cfg, s, a + b) == Then(cfg, Run(cfg, s, a), b)
    decreases |a|
  {
    if a == [] {
      assert a + b == b;
    } else {
      assert (a + b)[0] == a[0] && (a + b)[1..] == a[1..] + b;
      var step := Step(cfg, s, a[0]);
      if step.Ok? {
        var (s1, u1) := step.value;
        RunAppend(cfg, s1, a[1..], b);
        var mid, whole := Run(cfg, s1, a[1..]), Run(cfg, s1, a[1..] + b);
        if mid.last.Ok? {
          assert u1 + (mid.units + Run(cfg, mid.last.value, b).units)
              == (u1 + mid.units) + Run(cfg, mid.last.value, b).units;
        }
      }
    }
  }

  /** One more input: one more step from wherever the run is. */
  lemma RunOneMore(cfg: Config, s: State, inputs: seq<Input>, x: Input)
    ensures var before := Run(cfg, s, inputs);
      Run(cfg, s, inputs + [x]) ==
      match before.last
      case Err(_) => before
      case Ok(s0) =>
        match Step(cfg, s0, x)
        case Err(e) => Outcome(before.units, Err(e))
        case Ok((s1, u1)) => Outcome(before.units + u1, Ok(s1))
  {
    RunAppend(cfg, s, inputs, [x]);
    var before := Run(cfg, s, inputs);
    if before.last.Ok? {
      var s0 := before.last.value;
      hide Step;
      assert [x][1..] == [];
      match Step(cfg, s0, x) {
        case Err(e) => assert Run(cfg, s0, [x]) == Outcome([], Err(e));
        case Ok((s1, u1)) =>
          assert Run(cfg, s1, []) == Outcome([], Ok(s1));
          assert Run(cfg, s0, [x]) == Outcome(u1 + [], Ok(s1));
      }
    }
  }

  lemma CoveredNone()
    ensures Covered([]) == []
  {
  }

  lemma {:induction false} CoveredAppend(a: seq<Unit>, b: seq<Unit>)
    ensures Covered(a + b) == Covered(a) + Covered(b)
  {
    if a == [] {
      assert a + b == b;
    } else {
      assert (a + b)[1..] == a[1..] + b;
      CoveredAppend(a[1..], b);
    }
  }

  // ---------------------------------------------------------------------------
  // What every reachable state satisfies
  // ---------------------------------------------------------------------------

  ghost predicate Counts(rec: Record) {
    IsRow(rec) || IsTransactionalMessage(rec)
  }

  ghost function Counted(records: seq<Record>): seq<Record> {
    if records == [] then [] else
      var last := records[|records| - 1];
      Counted(records[..|records| - 1]) + if Counts(last) then [last] else []
  }

  ghost function RecsOf(events: seq<Event>): seq<Record> {
    seq(|events|, i requires 0 <= i < |events| => events[i].rec)
  }

  ghost predicate Distinct(events: seq<Event>) {
    forall i, j :: 0 <= i < j < |events| ==> events[i].ordinal != events[j].ordinal
  }

  /** The events are the counted records in arrival order, all of one transaction, each
      with the positive ordinal it declared, no ordinal twice. */
  ghost predicate TxnSound(id: string, events: seq<Event>, records: seq<Record>) {
    RecsOf(events) == Counted(records) &&
    Distinct(events) &&
    (forall r :: r in records ==> !r.kind.Snapshot?) &&
    forall e :: e in events ==> e.rec.txnId == Some(id) && e.rec.totalOrder == Integer(e.ordinal) && e.ordinal >= 1
  }

  ghost predicate ChunkSound(chunk: Chunk) {
    chunk.events != [] &&
    RecsOf(chunk.events) == chunk.records &&
    forall e :: e in chunk.events ==>
      e.rec.kind.Snapshot? && SameRelation(chunk, e.rec) &&
      e.rec.snapshot.Incremental? == chunk.incremental
  }

  ghost predicate Sound(s: State) {
    (s.deferred != [] ==> s.open.InTxn?) &&
    (s.open.InTxn? ==> TxnSound(s.open.txn.id, s.open.txn.events, s.open.txn.records)) &&
    (s.open.InChunk? ==> ChunkSound(s.open.chunk)) &&
    (forall r :: r in s.deferred ==> r.kind.Snapshot?)
  }

  /** The boundary rule, stated of an emitted transaction: END is the last record covered,
      it declares exactly the counted events, the ordinals are exactly 1..N, and the
      per-table tallies agree in both directions up to the message allowance. */
  ghost predicate TxnWhole(id: string, events: seq<Event>, records: seq<Record>) {
    records != [] &&
    var end := records[|records| - 1];
    end.kind.TxnEnd? && end.txnId == Some(id) &&
    TxnSound(id, events, records[..|records| - 1]) &&
    end.eventCount == Integer(|events|) &&
    (forall i :: 1 <= i <= |events| <==> i in Ordinals(events)) &&
    CollectionsAgree(events, end.collections)
  }

  ghost predicate UnitSound(u: Unit) {
    match u
    case TxnUnit(id, events, records) => TxnWhole(id, events, records)
    case ChunkUnit(chunk, _) => ChunkSound(chunk)
    case MessageUnit(rec) => rec.kind.Message? && !IsTransactionalMessage(rec)
    case ControlUnit(rec) => !Counts(rec) && !rec.kind.Snapshot?
  }

  ghost predicate AllSound(units: seq<Unit>) {
    forall u :: u in units ==> UnitSound(u)
  }

  /** Counting one more record of the same transaction, with a new positive ordinal. */
  lemma GrowSound(txn: Txn, rec: Record, n: int)
    requires TxnSound(txn.id, txn.events, txn.records) && Counts(rec)
    requires rec.txnId == Some(txn.id) && rec.totalOrder == Integer(n) && n >= 1 && n !in Ordinals(txn.events)
    ensures TxnSound(txn.id, txn.events + [Event(rec, n)], txn.records + [rec])
  {
    var events, records := txn.events + [Event(rec, n)], txn.records + [rec];
    assert Counted(records) == Counted(txn.records) + [rec] by {
      assert records[..|records| - 1] == txn.records;
    }
    assert RecsOf(events) == RecsOf(txn.events) + [rec];
    hide Counted, RecsOf, Counts;
    forall i | 0 <= i < |txn.events|
      ensures txn.events[i].ordinal != n
    {
      assert txn.events[i] in txn.events;
    }
    assert Distinct(events);
    assert forall e :: e in events ==> e in txn.events || e == Event(rec, n);
    assert !rec.kind.Snapshot? by { NoSnapshotCounts(rec); }
  }

  lemma NoSnapshotCounts(rec: Record)
    requires Counts(rec)
    ensures !rec.kind.Snapshot?
  {
  }

  lemma AdmitSound(s: State, rec: Record)
    requires Sound(s) && !s.open.InChunk? && Counts(rec) && Admit(s, rec).Ok?
    ensures Sound(Admit(s, rec).value.0)
  {
    var txn := if s.open.InTxn? then s.open.txn else Txn(rec.txnId.value, [], []);
    GrowSound(txn, rec, Ordinal(rec).value);
  }

  lemma FeedSnapshotSound(cfg: Config, s: State, rec: Record)
    requires Sound(s) && !s.open.InTxn? && rec.kind.Snapshot? && FeedSnapshot(cfg, s, rec).Ok?
    ensures var (s1, u1) := FeedSnapshot(cfg, s, rec).value; Sound(s1) && AllSound(u1)
  {
    var chunk := Grown(s, rec);
    var before := if Continues(s.open, rec) then s.open.chunk.events else [];
    assert RecsOf(chunk.events) == RecsOf(before) + [rec];
    assert ChunkSound(chunk);
  }

  lemma {:induction false} FlushSound(cfg: Config, s: State, queue: seq<Record>)
    requires Sound(s) && !s.open.InTxn? && (forall r :: r in queue ==> r.kind.Snapshot?)
    requires Flush(cfg, s, queue).Ok?
    ensures var (s1, u1) := Flush(cfg, s, queue).value; Sound(s1) && AllSound(u1)
    decreases |queue|
  {
    if queue != [] {
      FeedSnapshotSound(cfg, s, queue[0]);
      FlushSound(cfg, FeedSnapshot(cfg, s, queue[0]).value.0, queue[1..]);
    }
  }

  /** A record that is covered but not counted leaves a transaction sound. */
  lemma CoverSound(txn: Txn, rec: Record)
    requires TxnSound(txn.id, txn.events, txn.records) && !Counts(rec) && !rec.kind.Snapshot?
    ensures TxnSound(txn.id, txn.events, txn.records + [rec])
  {
    assert (txn.records + [rec])[..|txn.records|] == txn.records;
  }

  lemma FeedEndSound(s: State, rec: Record)
    requires Sound(s) && s.open.InTxn? && rec.kind.TxnEnd? && FeedEnd(s, rec).Ok?
    ensures AllSound(FeedEnd(s, rec).value.1)
  {
    var txn := s.open.txn;
    var records := txn.records + [rec];
    assert records[..|records| - 1] == txn.records;
    assert Ordinals(txn.events) == Range(|txn.events|);
    assert TxnWhole(txn.id, txn.events, records);
  }

  lemma FeedControlSound(s: State, rec: Record)
    requires Sound(s) && !s.open.InChunk? && !rec.kind.Snapshot? && !IsRow(rec) && FeedControl(s, rec).Ok?
    ensures var (s1, u1) := FeedControl(s, rec).value; Sound(s1) && AllSound(u1)
  {
    if Counts(rec) {
      AdmitSound(s, rec);
    } else if s.open.InTxn? {
      CoverSound(s.open.txn, rec);
    }
  }

  lemma FeedStreamSound(s: State, rec: Record)
    requires Sound(s) && !s.open.InChunk? && !rec.kind.Snapshot? && FeedStream(s, rec).Ok?
    ensures var (s1, u1) := FeedStream(s, rec).value; Sound(s1.(deferred := [])) && AllSound(u1)
    ensures FeedStream(s, rec).value.0.deferred == s.deferred
  {
    match rec.kind {
      case TxnBegin =>
        CoverSound(Txn(rec.txnId.value, [], []), rec);
        assert [] + [rec] == [rec];
      case TxnEnd =>
        if s.open.InTxn? {
          FeedEndSound(s, rec);
        }
      case Data => AdmitSound(s, rec);
      case Truncate => AdmitSound(s, rec);
      case _ => FeedControlSound(s, rec);
    }
  }

  lemma StepSound(cfg: Config, s: State, input: Input)
    requires Sound(s) && Step(cfg, s, input).Ok?
    ensures var (s1, u1) := Step(cfg, s, input).value; Sound(s1) && AllSound(u1)
  {
    if input.Feed? {
      var rec := input.rec;
      if !rec.kind.Snapshot? {
        var s0 := s.(open := WithoutChunk(s.open));
        FeedStreamSound(s0, rec);
        var (s1, u1) := FeedStream(s0, rec).value;
        if !s1.open.InTxn? {
          FlushSound(cfg, s1.(deferred := []), s1.deferred);
        }
      } else if !s.open.InTxn? {
        FeedSnapshotSound(cfg, s, rec);
      }
    }
  }

  /** Every unit any run emits is proven whole, and every state it passes through is sound. */
  lemma {:induction false} EveryUnitWhole(cfg: Config, s: State, inputs: seq<Input>)
    requires Sound(s)
    ensures AllSound(Run(cfg, s, inputs).units)
    ensures Run(cfg, s, inputs).last.Ok? ==> Sound(Run(cfg, s, inputs).last.value)
    decreases |inputs|
  {
    if inputs != [] && Step(cfg, s, inputs[0]).Ok? {
      StepSound(cfg, s, inputs[0]);
      EveryUnitWhole(cfg, Step(cfg, s, inputs[0]).value.0, inputs[1..]);
    }
  }

  /** No two events of one emitted transaction share a (transaction id, ordinal) identity,
      and the identities are exactly (id, 1) .. (id, N). */
  lemma EventIdentitiesUnique(cfg: Config, inputs: seq<Input>, u: Unit, i: nat, j: nat)
    requires u in Run(cfg, INITIAL, inputs).units && u.TxnUnit?
    requires i < |u.events| && j < |u.events|
    ensures u.events[i].rec.txnId == Some(u.id)
    ensures 1 <= u.events[i].ordinal <= |u.events|
    ensures (u.events[i].rec.txnId, u.events[i].ordinal) == (u.events[j].rec.txnId, u.events[j].ordinal) <==> i == j
  {
    EveryUnitWhole(cfg, INITIAL, inputs);
    assert u.events[i] in u.events && u.events[j] in u.events;
    assert u.events[i].ordinal in Ordinals(u.events);
  }
}
