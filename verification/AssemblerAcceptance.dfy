/** Which record streams src/cdc_flight/assembler.py accepts, told from the records alone. */
module AssemblerAcceptance {
  import opened Options
  import opened Records
  import opened AssemblerSpec
  import opened AssemblerProofs
  import AssemblerStreams

  /** The records of the transaction still open after these: from the BEGIN, or from the first
      counted record that came without one, with snapshot rows left out. */
  ghost function Since(recs: seq<Record>): seq<Record> {
    if recs == [] then [] else
      var before, last := Since(recs[..|recs| - 1]), recs[|recs| - 1];
      if last.kind.TxnEnd? then []
      else if before == [] then (if last.kind.TxnBegin? || Counts(last) then [last] else [])
      else if last.kind.Snapshot? then before else before + [last]
  }

  /** The counted records with the ordinals they declare. */
  ghost function EventsOf(recs: seq<Record>): seq<Event> {
    if recs == [] then [] else
      var last := recs[|recs| - 1];
      EventsOf(recs[..|recs| - 1]) +
      if Counts(last) then [Event(last, if last.totalOrder.Integer? then last.totalOrder.n else 0)] else []
  }

  /** Whether this input may follow these records. */
  ghost predicate Follows(cfg: Config, before: seq<Record>, input: Input) {
    var rec, txn := input.rec, Since(before);
    if input.Boundary? then rec.kind.SnapshotBoundary? && !rec.acknowledgeable && txn == []
    else match rec.kind
      case Snapshot => (rec.snapshot.Incremental? ==> cfg.incrementalEnabled) && (txn != [] ==> rec.snapshot.Incremental?)
      case TxnBegin => txn == [] && rec.txnId.Some?
      case TxnEnd => txn == [] || (rec.txnId == txn[0].txnId && Whole(EventsOf(txn), rec))
      case Data => Counting(txn, rec)
      case Truncate => Counting(txn, rec)
      case Message => if IsTransactionalMessage(rec) then Counting(txn, rec) else txn == []
      case _ => true
  }

  /** END declares the number of events, their ordinals are exactly 1 to that number, and the
      declared collections agree with the events. */
  ghost predicate Whole(events: seq<Event>, end: Record) {
    end.eventCount == Integer(|events|) &&
    (forall i :: i in Ordinals(events) <==> 1 <= i <= |events|) &&
    CollectionsAgree(events, end.collections)
  }

  lemma WholeIffComplete(events: seq<Event>, end: Record)
    ensures Incomplete(events, end).None? <==> Whole(events, end)
  {
    hide CollectionsAgree, Ordinals;
    if forall i :: i in Ordinals(events) <==> 1 <= i <= |events| {
      assert Ordinals(events) == Range(|events|);
    }
  }

  /** A counted record names its transaction and a positive ordinal; inside a transaction it
      names that one, and an ordinal no record before it had. */
  ghost predicate Counting(txn: seq<Record>, rec: Record) {
    rec.txnId.Some? && rec.totalOrder.Integer? && rec.totalOrder.n >= 1 &&
    (txn != [] ==> rec.txnId == txn[0].txnId &&
                   forall r :: r in txn && Counts(r) ==> r.totalOrder != rec.totalOrder)
  }

  ghost function RecordsIn(inputs: seq<Input>): (recs: seq<Record>)
    ensures |recs| == |inputs| && forall i :: 0 <= i < |inputs| ==> recs[i] == inputs[i].rec
  {
    seq(|inputs|, i requires 0 <= i < |inputs| => inputs[i].rec)
  }

  /** The open transaction is made of the records since it opened. */
  ghost predicate Tells(s: State, recs: seq<Record>) {
    var txn := Since(recs);
    if txn == [] then !s.open.InTxn?
    else txn[0].txnId.Some? && s.open == Opened(txn)
  }

  /** Deferred reads were admitted with incremental snapshots enabled. */
  ghost predicate Holding(cfg: Config, s: State) {
    forall r :: r in s.deferred ==> r.kind.Snapshot? && cfg.incrementalEnabled
  }

  lemma EventsOne(recs: seq<Record>, rec: Record)
    ensures EventsOf(recs + [rec]) == EventsOf(recs) +
      if Counts(rec) then [Event(rec, if rec.totalOrder.Integer? then rec.totalOrder.n else 0)] else []
  {
    assert (recs + [rec])[..|recs|] == recs;
  }

  lemma SinceOne(recs: seq<Record>, rec: Record)
    ensures var before := Since(recs);
      Since(recs + [rec]) == if rec.kind.TxnEnd? then []
        else if before == [] then (if rec.kind.TxnBegin? || Counts(rec) then [rec] else [])
        else if rec.kind.Snapshot? then before else before + [rec]
  {
    assert (recs + [rec])[..|recs|] == recs;
  }

  lemma {:induction false} OrdinalsOf(recs: seq<Record>, n: int)
    requires n >= 1
    ensures n in Ordinals(EventsOf(recs)) <==> exists r :: r in recs && Counts(r) && r.totalOrder == Integer(n)
    decreases |recs|
  {
    if recs != [] {
      var front, last := recs[..|recs| - 1], recs[|recs| - 1];
      OrdinalsOf(front, n);
      assert recs == front + [last];
      EventsOne(front, last);
      var events := EventsOf(front);
      forall e: Event
        ensures n in Ordinals(events + [e]) <==> n in Ordinals(events) || e.ordinal == n
      {
        OrdinalsMore(events, e, n);
      }
      assert forall r :: r in recs <==> r in front || r == last;
      assert events + [] == events;
    }
  }

  lemma OrdinalsMore(events: seq<Event>, e: Event, n: int)
    ensures n in Ordinals(events + [e]) <==> n in Ordinals(events) || e.ordinal == n
  {
    assert forall d :: d in events + [e] <==> d in events || d == e;
    if n in Ordinals(events) {
      var d :| d in events && d.ordinal == n;
      assert d in events + [e];
    }
    if e.ordinal == n { assert e in events + [e]; }
  }

  lemma {:induction false} FlushAccepts(cfg: Config, s: State, queue: seq<Record>)
    requires !s.open.InTxn? && (queue != [] ==> cfg.incrementalEnabled)
    ensures var r := Flush(cfg, s, queue); r.Ok? && !r.value.0.open.InTxn? && r.value.0.deferred == s.deferred
    decreases |queue|
  {
    if queue != [] {
      hide Grown, Displaced, Full;
      FlushAccepts(cfg, FeedSnapshot(cfg, s, queue[0]).value.0, queue[1..]);
    }
  }

  /** The open unit a transaction of these records is. */
  ghost function Opened(txn: seq<Record>): Open
    requires txn != [] && txn[0].txnId.Some?
  {
    InTxn(Txn(txn[0].txnId.value, EventsOf(txn), txn))
  }

  lemma AdmitOpens(s: State, rec: Record)
    requires s.open.Idle? && Counts(rec)
    ensures Admit(s, rec).Ok? <==> Counting([], rec)
    ensures Admit(s, rec).Ok? ==> Admit(s, rec).value.0 == s.(open := Opened([rec]))
  {
    NoEvents(rec);
    EventsOne([], rec);
    assert [] + [rec] == [rec];
    hide EventsOf, Ordinals;
  }

  lemma AdmitJoins(s: State, txn: seq<Record>, rec: Record)
    requires txn != [] && txn[0].txnId.Some? && s.open == Opened(txn) && Counts(rec)
    ensures Admit(s, rec).Ok? <==> Counting(txn, rec)
    ensures Admit(s, rec).Ok? ==> Admit(s, rec).value.0 == s.(open := Opened(txn + [rec]))
  {
    if rec.totalOrder.Integer? && rec.totalOrder.n >= 1 {
      OrdinalsOf(txn, rec.totalOrder.n);
      EventsOne(txn, rec);
    }
    hide EventsOf, Ordinals, Counts;
    assert (txn + [rec])[0] == txn[0];
  }

  lemma AdmitAccepts(s: State, recs: seq<Record>, rec: Record)
    requires Tells(s, recs) && !s.open.InChunk? && Counts(rec)
    ensures Admit(s, rec).Ok? <==> Counting(Since(recs), rec)
    ensures Admit(s, rec).Ok? ==> Tells(Admit(s, rec).value.0, recs + [rec]) && Admit(s, rec).value.0.deferred == s.deferred
  {
    hide EventsOf, Since, Admit, Counting;
    SinceOne(recs, rec);
    var txn := Since(recs);
    if txn == [] {
      AdmitOpens(s, rec);
      if Counting([], rec) { CountingNamed([], rec); }
    } else {
      AdmitJoins(s, txn, rec);
      assert (txn + [rec])[0] == txn[0];
    }
  }

  lemma CountingNamed(txn: seq<Record>, rec: Record)
    requires Counting(txn, rec)
    ensures rec.txnId.Some?
  {
  }

  lemma NoEvents(rec: Record)
    ensures EventsOf([]) == [] && Ordinals([]) == {}
  {
  }

  /** A record that is neither a snapshot row nor counted. */
  lemma OtherAccepts(cfg: Config, s: State, recs: seq<Record>, rec: Record)
    requires Tells(s, recs) && !s.open.InChunk? && !rec.kind.Snapshot? && !Counts(rec)
    ensures FeedStream(s, rec).Ok? <==> Follows(cfg, recs, Feed(rec))
    ensures FeedStream(s, rec).Ok? ==>
      Tells(FeedStream(s, rec).value.0, recs + [rec]) && FeedStream(s, rec).value.0.deferred == s.deferred
  {
    var txn := Since(recs);
    SinceOne(recs, rec);
    EventsOne(txn, rec);
    EventsOne([], rec);
    assert [] + [rec] == [rec];
    NoEvents(rec);
    WholeIffComplete(EventsOf(txn), rec);
    hide EventsOf, Since, Incomplete, Whole, Admit, Counting, Ordinals;
    assert EventsOf(txn) + [] == EventsOf(txn);
    if txn != [] { assert (txn + [rec])[0] == txn[0]; }
  }

  lemma StreamAccepts(cfg: Config, s: State, recs: seq<Record>, rec: Record)
    requires Tells(s, recs) && !s.open.InChunk? && !rec.kind.Snapshot?
    ensures FeedStream(s, rec).Ok? <==> Follows(cfg, recs, Feed(rec))
    ensures FeedStream(s, rec).Ok? ==>
      Tells(FeedStream(s, rec).value.0, recs + [rec]) && FeedStream(s, rec).value.0.deferred == s.deferred
  {
    hide Admit, Since, EventsOf, Counting, Tells;
    if Counts(rec) { AdmitAccepts(s, recs, rec); } else { OtherAccepts(cfg, s, recs, rec); }
  }

  lemma RecordAccepts(cfg: Config, s: State, recs: seq<Record>, rec: Record)
    requires Tells(s, recs) && Holding(cfg, s) && !rec.kind.Snapshot?
    ensures FeedRecord(cfg, s, rec).Ok? <==> Follows(cfg, recs, Feed(rec))
    ensures FeedRecord(cfg, s, rec).Ok? ==> var s1 := FeedRecord(cfg, s, rec).value.0; Tells(s1, recs + [rec]) && Holding(cfg, s1)
  {
    var s0 := s.(open := WithoutChunk(s.open));
    StreamAccepts(cfg, s0, recs, rec);
    hide Since, EventsOf, FeedStream, Follows;
    if FeedStream(s0, rec).Ok? {
      var s1 := FeedStream(s0, rec).value.0;
      if !s1.open.InTxn? {
        if s1.deferred != [] { assert s1.deferred[0] in s.deferred; }
        FlushAccepts(cfg, s1.(deferred := []), s1.deferred);
      }
    }
  }

  lemma SnapshotAccepts(cfg: Config, s: State, recs: seq<Record>, rec: Record)
    requires Tells(s, recs) && Holding(cfg, s) && rec.kind.Snapshot?
    ensures FeedRecord(cfg, s, rec).Ok? <==> Follows(cfg, recs, Feed(rec))
    ensures FeedRecord(cfg, s, rec).Ok? ==> var s1 := FeedRecord(cfg, s, rec).value.0; Tells(s1, recs + [rec]) && Holding(cfg, s1)
  {
    SinceOne(recs, rec);
    hide Since, EventsOf, Grown, Displaced, Full;
  }

  lemma BoundaryAccepts(cfg: Config, s: State, recs: seq<Record>, rec: Record)
    requires Tells(s, recs) && Holding(cfg, s)
    ensures FeedBoundary(s, rec).Ok? <==> Follows(cfg, recs, Boundary(rec))
    ensures FeedBoundary(s, rec).Ok? ==> var s1 := FeedBoundary(s, rec).value.0; Tells(s1, recs + [rec]) && Holding(cfg, s1)
  {
    SinceOne(recs, rec);
    hide Since, EventsOf;
  }

  lemma StepAccepts(cfg: Config, s: State, recs: seq<Record>, input: Input)
    requires Tells(s, recs) && Holding(cfg, s)
    ensures Step(cfg, s, input).Ok? <==> Follows(cfg, recs, input)
    ensures Step(cfg, s, input).Ok? ==> var s1 := Step(cfg, s, input).value.0; Tells(s1, recs + [input.rec]) && Holding(cfg, s1)
  {
    hide FeedRecord, FeedBoundary, Follows, Tells, Holding;
    if input.Boundary? {
      BoundaryAccepts(cfg, s, recs, input.rec);
    } else if input.rec.kind.Snapshot? {
      SnapshotAccepts(cfg, s, recs, input.rec);
    } else {
      RecordAccepts(cfg, s, recs, input.rec);
    }
  }

  ghost predicate WellFormed(cfg: Config, inputs: seq<Input>) {
    forall i :: 0 <= i < |inputs| ==> Follows(cfg, RecordsIn(inputs)[..i], inputs[i])
  }

  /** A stream is accepted exactly when each input may follow the records before it. */
  lemma {:induction false} AcceptedIffWellFormed(cfg: Config, inputs: seq<Input>)
    ensures Run(cfg, INITIAL, inputs).last.Ok? <==> WellFormed(cfg, inputs)
    ensures Run(cfg, INITIAL, inputs).last.Ok? ==>
      Tells(Run(cfg, INITIAL, inputs).last.value, RecordsIn(inputs)) && Holding(cfg, Run(cfg, INITIAL, inputs).last.value)
    decreases |inputs|
  {
    hide Step, Follows, Tells, Holding;
    if inputs == [] {
      Beginning(cfg);
      assert RecordsIn([]) == [];
    } else {
      var front, x := inputs[..|inputs| - 1], inputs[|inputs| - 1];
      assert inputs == front + [x];
      AcceptedIffWellFormed(cfg, front);
      RunOneMore(cfg, INITIAL, front, x);
      WellFormedOne(cfg, front, x);
      assert RecordsIn(inputs) == RecordsIn(front) + [x.rec];
      var before := Run(cfg, INITIAL, front);
      hide Run, WellFormed;
      if before.last.Ok? { StepAccepts(cfg, before.last.value, RecordsIn(front), x); }
    }
  }

  lemma Beginning(cfg: Config)
    ensures Tells(INITIAL, []) && Holding(cfg, INITIAL)
  {
  }

  lemma WellFormedOne(cfg: Config, front: seq<Input>, x: Input)
    ensures WellFormed(cfg, front + [x]) <==> WellFormed(cfg, front) && Follows(cfg, RecordsIn(front), x)
  {
    hide Follows;
    var inputs := front + [x];
    var recs := RecordsIn(inputs);
    assert recs[..|front|] == RecordsIn(front);
    forall i | 0 <= i < |front|
      ensures recs[..i] == RecordsIn(front)[..i] && inputs[i] == front[i]
    {
    }
    assert inputs[|front|] == x;
  }
}
