/** The delete policy of src/cdc_flight/applier.py: a reload may arrive at any record, but
    takes effect only between source transactions, and closes the commit group that was
    filling. So neither one source commit nor one destination transaction is ever described
    by two delete semantics. */
module DeletePolicy {
  import opened Options
  import opened Sequences
  import opened Records
  import opened AssemblerSpec
  import AssemblerStreams
  import Assembler

  datatype DeleteMode = DeleteMode(epoch: int, digest: string)

  /** The policy in force, the one waiting for a boundary, the assembler's state, the group
      that is filling and the groups committed so far. */
  datatype Gate = Gate(current: DeleteMode, pending: Option<DeleteMode>, assembler: State,
                       group: seq<Unit>, commits: seq<seq<Unit>>)

  /** `ready` is the answer of the snapshot completion machine, which can hold back a group
      that carries the terminal snapshot offset; `Close` is a soft trigger. */
  datatype Action =
    | Request(mode: DeleteMode)
    | Deliver(rec: Record, ready: bool)
    | Announce(rec: Record, ready: bool)
    | Close(ready: bool)

  datatype Stop = Refused(error: Error) | Held

  datatype Served = Served(units: seq<Unit>, gate: Gate, stop: Option<Stop>)

  function Fresh(mode: DeleteMode): Gate {
    Gate(mode, None, INITIAL, [], [])
  }

  function Marked(rec: Record, mode: DeleteMode): Record {
    rec.(policyEpoch := mode.epoch, policyDigest := mode.digest)
  }

  // ---------------------------------------------------------------------------
  // Commit groups
  // ---------------------------------------------------------------------------

  /** The control unit that carries the terminal snapshot offset. */
  predicate Terminal(u: Unit) {
    u.ControlUnit? && u.rec.kind.SnapshotBoundary?
  }

  /** Units of the initial snapshot phase; incremental chunks belong to streaming. */
  predicate Initial(u: Unit) {
    Terminal(u) || (u.ChunkUnit? && !u.chunk.incremental)
  }

  predicate Blocked(group: seq<Unit>, ready: bool) {
    !ready && exists u :: u in group && Terminal(u)
  }

  function Committed(g: Gate, ready: bool): Gate {
    if g.group == [] || Blocked(g.group, ready) then g
    else g.(group := [], commits := g.commits + [g.group])
  }

  predicate OffPhase(group: seq<Unit>, u: Unit) {
    group != [] && Initial(group[0]) != Initial(u)
  }

  /** A unit of the other phase first commits the group; a group held back stops the run. */
  function Admitted(g: Gate, u: Unit, ready: bool): Option<Gate> {
    var clear := if OffPhase(g.group, u) then Committed(g, ready) else g;
    if OffPhase(clear.group, u) then None else Some(clear.(group := clear.group + [u]))
  }

  function AdmitAll(g: Gate, units: seq<Unit>, ready: bool): (Gate, Option<Stop>)
    decreases |units|
  {
    if units == [] then (g, None) else
    match Admitted(g, units[0], ready)
    case None => (g, Some(Held))
    case Some(next) => AdmitAll(next, units[1..], ready)
  }

  // ---------------------------------------------------------------------------
  // The record loop
  // ---------------------------------------------------------------------------

  /** A request for the policy already in force withdraws whatever was waiting. */
  function Requested(g: Gate, mode: DeleteMode): Gate {
    if mode.digest == g.current.digest then g.(pending := None) else g.(pending := Some(mode))
  }

  function Activated(g: Gate, ready: bool): Gate {
    if g.pending.None? || g.assembler.open.InTxn? then g else
    var next := g.(current := g.pending.value, pending := None);
    if g.group != [] && g.current.digest != next.current.digest then Committed(next, ready) else next
  }

  function Taken(g: Gate, fed: Fed, ready: bool): Served {
    if fed.Err? then Served([], g, Some(Refused(fed.error))) else
    var (next, stop) := AdmitAll(g.(assembler := fed.value.0), fed.value.1, ready);
    Served(fed.value.1, next, stop)
  }

  function Act(cfg: Config, g: Gate, action: Action): Served {
    match action
    case Request(mode) => Served([], Requested(g, mode), None)
    case Close(ready) => Served([], Committed(g, ready), None)
    case Announce(rec, ready) => Taken(g, FeedBoundary(g.assembler, rec), ready)
    case Deliver(rec, ready) =>
      var active := Activated(g, ready);
      Taken(active, FeedRecord(cfg, active.assembler, Marked(rec, active.current)), ready)
  }

  function Serve(cfg: Config, g: Gate, actions: seq<Action>): Served
    decreases |actions|
  {
    if actions == [] then Served([], g, None) else
    var first := Act(cfg, g, actions[0]);
    if first.stop.Some? then first else Onward(first.units, Serve(cfg, first.gate, actions[1..]))
  }

  function Onward(done: seq<Unit>, rest: Served): Served {
    rest.(units := done + rest.units)
  }

  // ---------------------------------------------------------------------------
  // One policy per transaction and per group
  // ---------------------------------------------------------------------------

  predicate Carries(events: seq<Event>, mode: DeleteMode) {
    forall e :: e in events ==> e.rec.policyEpoch == mode.epoch && e.rec.policyDigest == mode.digest
  }

  predicate Ordinary(records: seq<Record>) {
    forall r :: r in records ==> !r.kind.SnapshotBoundary?
  }

  /** Decoding gives no record the kind of the synthetic boundary. */
  predicate Decoded(actions: seq<Action>) {
    forall a :: a in actions && a.Deliver? ==> !a.rec.kind.SnapshotBoundary?
  }

  /** A transaction of this policy, or any other unit; only a control unit is terminal. */
  predicate Fits(u: Unit, mode: DeleteMode) {
    (u.TxnUnit? ==> Carries(u.events, mode)) && (u.ControlUnit? || Ordinary(RecordsOf(u)))
  }

  predicate AllFit(units: seq<Unit>, mode: DeleteMode) {
    forall u :: u in units ==> Fits(u, mode)
  }

  /** Every event of the open transaction was marked by this policy. */
  predicate Clean(s: State, mode: DeleteMode) {
    (s.open.InTxn? ==> Carries(s.open.txn.events, mode)) && Ordinary(OpenRecords(s.open)) && Ordinary(s.deferred)
  }

  predicate OnePhase(group: seq<Unit>) {
    forall u, v :: u in group && v in group ==> (Initial(u) <==> Initial(v))
  }

  /** A committed group: of one phase, and all its transactions of one policy. */
  ghost predicate Whole(group: seq<Unit>) {
    group != [] && OnePhase(group) && exists mode :: AllFit(group, mode)
  }

  ghost predicate AllWhole(commits: seq<seq<Unit>>) {
    forall c :: c in commits ==> Whole(c)
  }

  ghost predicate Steady(g: Gate) {
    Clean(g.assembler, g.current) && AllFit(g.group, g.current) && OnePhase(g.group) && AllWhole(g.commits) &&
    (g.pending.Some? ==> g.pending.value.digest != g.current.digest)
  }

  ghost predicate OneMode(u: Unit) {
    u.TxnUnit? ==> exists mode :: Carries(u.events, mode)
  }

  ghost predicate AllOneMode(units: seq<Unit>) {
    forall u :: u in units ==> OneMode(u)
  }

  lemma FeedSnapshotFits(cfg: Config, s: State, rec: Record, mode: DeleteMode)
    requires !s.open.InTxn? && Clean(s, mode) && !rec.kind.SnapshotBoundary? && FeedSnapshot(cfg, s, rec).Ok?
    ensures var (s1, units) := FeedSnapshot(cfg, s, rec).value; AllFit(units, mode) && !s1.open.InTxn? && Clean(s1, mode)
  {
    hide Full, Seen, TableLast, Carries, Continues, Displaced, Grown;
    GrownOrdinary(s, rec);
    assert Ordinary(RecordsOf(ChunkUnit(Grown(s, rec), TableLast(rec))));
    DisplacedFits(s, rec, mode);
  }

  lemma GrownOrdinary(s: State, rec: Record)
    requires Ordinary(OpenRecords(s.open)) && !rec.kind.SnapshotBoundary?
    ensures Ordinary(Grown(s, rec).records)
  {
    hide Seen;
  }

  lemma DisplacedFits(s: State, rec: Record, mode: DeleteMode)
    requires Ordinary(OpenRecords(s.open))
    ensures AllFit(Displaced(s.open, rec), mode)
  {
  }

  lemma {:induction false} FlushFits(cfg: Config, s: State, queue: seq<Record>, mode: DeleteMode)
    requires !s.open.InTxn? && Clean(s, mode) && Ordinary(queue) && Flush(cfg, s, queue).Ok?
    ensures AllFit(Flush(cfg, s, queue).value.1, mode) && Clean(Flush(cfg, s, queue).value.0, mode)
    decreases |queue|
  {
    if queue != [] {
      FeedSnapshotFits(cfg, s, queue[0], mode);
      FlushFits(cfg, FeedSnapshot(cfg, s, queue[0]).value.0, queue[1..], mode);
    }
  }

  lemma FeedStreamFits(s: State, rec: Record, mode: DeleteMode)
    requires !s.open.InChunk? && Clean(s, mode) && !rec.kind.SnapshotBoundary?
    requires rec == Marked(rec, mode) && FeedStream(s, rec).Ok?
    ensures var (s1, units) := FeedStream(s, rec).value; AllFit(units, mode) && Clean(s1, mode)
  {
  }

  lemma FeedRecordFits(cfg: Config, s: State, rec: Record, mode: DeleteMode)
    requires Clean(s, mode) && !rec.kind.SnapshotBoundary?
    requires rec == Marked(rec, mode) && FeedRecord(cfg, s, rec).Ok?
    ensures var (s1, units) := FeedRecord(cfg, s, rec).value; AllFit(units, mode) && Clean(s1, mode)
  {
    if rec.kind.Snapshot? {
      if !s.open.InTxn? { FeedSnapshotFits(cfg, s, rec, mode); }
    } else {
      var s0 := s.(open := WithoutChunk(s.open));
      FeedStreamFits(s0, rec, mode);
      var s1 := FeedStream(s0, rec).value.0;
      if !s1.open.InTxn? { FlushFits(cfg, s1.(deferred := []), s1.deferred, mode); }
    }
  }

  lemma CommittedSteady(g: Gate, ready: bool)
    requires Steady(g)
    ensures Steady(Committed(g, ready))
  {
    assert g.group == [] || Whole(g.group);
  }

  /** A group that is held back is of the initial phase and has no transaction, so the new
      policy may join it. */
  lemma ActivatedSteady(g: Gate, ready: bool)
    requires Steady(g)
    ensures Steady(Activated(g, ready))
  {
    if g.pending.Some? && !g.assembler.open.InTxn? && g.group != [] {
      assert Whole(g.group);
      if Blocked(g.group, ready) {
        forall u | u in g.group
          ensures Fits(u, g.pending.value)
        {
          assert Initial(u);
        }
      }
    }
  }

  lemma AdmittedSteady(g: Gate, u: Unit, ready: bool)
    requires Steady(g) && Fits(u, g.current)
    ensures var r := Admitted(g, u, ready); r.Some? ==> Steady(r.value) && r.value.current == g.current
  {
    CommittedSteady(g, ready);
    hide Steady, Fits, AllWhole, Blocked, Clean;
    var clear := if OffPhase(g.group, u) then Committed(g, ready) else g;
    if !OffPhase(clear.group, u) { Appended(clear, u); }
  }

  lemma Appended(g: Gate, u: Unit)
    requires Steady(g) && Fits(u, g.current) && !OffPhase(g.group, u)
    ensures Steady(g.(group := g.group + [u]))
  {
    hide Fits, AllWhole, Clean;
    assert forall v :: v in g.group ==> (Initial(v) <==> Initial(u));
  }

  lemma {:induction false} AdmitAllSteady(g: Gate, units: seq<Unit>, ready: bool)
    requires Steady(g) && AllFit(units, g.current)
    ensures Steady(AdmitAll(g, units, ready).0)
    decreases |units|
  {
    hide Steady, Fits, Admitted;
    if units != [] {
      AdmittedSteady(g, units[0], ready);
      var next := Admitted(g, units[0], ready);
      if next.Some? { AdmitAllSteady(next.value, units[1..], ready); }
    }
  }

  lemma TakenSteady(g: Gate, fed: Fed, ready: bool)
    requires Steady(g)
    requires fed.Ok? ==> AllFit(fed.value.1, g.current) && Clean(fed.value.0, g.current)
    ensures Steady(Taken(g, fed, ready).gate)
  {
    hide Fits, AllFit, AllWhole, Clean, OnePhase;
    if fed.Ok? { AdmitAllSteady(g.(assembler := fed.value.0), fed.value.1, ready); }
  }

  lemma ActSteady(cfg: Config, g: Gate, action: Action)
    requires Steady(g) && (action.Deliver? ==> !action.rec.kind.SnapshotBoundary?)
    ensures Steady(Act(cfg, g, action).gate) && AllOneMode(Act(cfg, g, action).units)
  {
    hide FeedRecord, AdmitAll, Activated, Fits;
    match action {
      case Request(mode) =>
      case Close(ready) => CommittedSteady(g, ready);
      case Announce(rec, ready) =>
        BoundaryFits(g.assembler, rec, g.current);
        TakenSteady(g, FeedBoundary(g.assembler, rec), ready);
        if FeedBoundary(g.assembler, rec).Ok? { FitOneMode(FeedBoundary(g.assembler, rec).value.1, g.current); }
      case Deliver(rec, ready) =>
        ActivatedSteady(g, ready);
        var active := Activated(g, ready);
        var marked := Marked(rec, active.current);
        var fed := FeedRecord(cfg, active.assembler, marked);
        if fed.Ok? {
          FeedRecordFits(cfg, active.assembler, marked, active.current);
          FitOneMode(fed.value.1, active.current);
        }
        TakenSteady(active, fed, ready);
    }
  }

  lemma BoundaryFits(s: State, rec: Record, mode: DeleteMode)
    requires Clean(s, mode)
    ensures FeedBoundary(s, rec).Ok? ==> AllFit(FeedBoundary(s, rec).value.1, mode) && Clean(FeedBoundary(s, rec).value.0, mode)
  {
  }

  lemma FitOneMode(units: seq<Unit>, mode: DeleteMode)
    requires AllFit(units, mode)
    ensures AllOneMode(units)
  {
    forall u | u in units
      ensures OneMode(u)
    {
      assert Fits(u, mode);
    }
  }

  /** For every interleaving of requests, records, boundaries and soft triggers: the events
      of each emitted transaction carry one policy, whether BEGIN was seen or not, and all
      transactions of one commit group carry the same one. */
  lemma {:induction false} OnePolicyPerTransaction(cfg: Config, g: Gate, actions: seq<Action>)
    requires Steady(g) && Decoded(actions)
    ensures AllOneMode(Serve(cfg, g, actions).units)
    ensures AllWhole(Serve(cfg, g, actions).gate.commits)
    ensures Steady(Serve(cfg, g, actions).gate)
    decreases |actions|
  {
    hide OneMode, Whole, Clean, OnePhase, AllFit, Act;
    if actions != [] {
      ActSteady(cfg, g, actions[0]);
      var first := Act(cfg, g, actions[0]);
      if first.stop.None? { OnePolicyPerTransaction(cfg, first.gate, actions[1..]); }
    }
  }

  // ---------------------------------------------------------------------------
  // A request takes effect at the next boundary
  // ---------------------------------------------------------------------------

  /** No request, and no record delivered between transactions. */
  ghost predicate Inside(cfg: Config, g: Gate, actions: seq<Action>)
    decreases |actions|
  {
    actions != [] ==>
      !actions[0].Request? && (actions[0].Deliver? ==> g.assembler.open.InTxn?) && Inside(cfg, Act(cfg, g, actions[0]).gate, actions[1..])
  }

  lemma {:induction false} AdmitAllKeeps(g: Gate, units: seq<Unit>, ready: bool)
    ensures var next := AdmitAll(g, units, ready).0;
      next.current == g.current && next.pending == g.pending && next.assembler == g.assembler
    decreases |units|
  {
    if units != [] {
      var next := Admitted(g, units[0], ready);
      if next.Some? { AdmitAllKeeps(next.value, units[1..], ready); }
    }
  }

  /** What was asked for waits while a transaction is open. */
  lemma {:induction false} PolicyWaits(cfg: Config, g: Gate, actions: seq<Action>)
    requires Inside(cfg, g, actions)
    ensures Serve(cfg, g, actions).gate.current == g.current && Serve(cfg, g, actions).gate.pending == g.pending
    decreases |actions|
  {
    if actions != [] {
      var a := actions[0];
      var first := Act(cfg, g, a);
      hide FeedRecord, FeedBoundary, AdmitAll;
      if a.Announce? && FeedBoundary(g.assembler, a.rec).Ok? {
        var fed := FeedBoundary(g.assembler, a.rec).value;
        AdmitAllKeeps(g.(assembler := fed.0), fed.1, a.ready);
      } else if a.Deliver? && FeedRecord(cfg, g.assembler, Marked(a.rec, g.current)).Ok? {
        var fed := FeedRecord(cfg, g.assembler, Marked(a.rec, g.current)).value;
        AdmitAllKeeps(g.(assembler := fed.0), fed.1, a.ready);
      }
      if first.stop.None? { PolicyWaits(cfg, first.gate, actions[1..]); }
    }
  }

  lemma {:induction false} ServeTidy(cfg: Config, g: Gate, actions: seq<Action>)
    requires AssemblerStreams.Tidy(g.assembler)
    ensures AssemblerStreams.Tidy(Serve(cfg, g, actions).gate.assembler)
    decreases |actions|
  {
    if actions != [] {
      var a := actions[0];
      hide FeedRecord, FeedBoundary, AdmitAll;
      if a.Announce? && FeedBoundary(g.assembler, a.rec).Ok? {
        var fed := FeedBoundary(g.assembler, a.rec).value;
        AssemblerStreams.StepCovers(cfg, g.assembler, Boundary(a.rec));
        AdmitAllKeeps(g.(assembler := fed.0), fed.1, a.ready);
      } else if a.Deliver? {
        var active := Activated(g, a.ready);
        var marked := Marked(a.rec, active.current);
        if FeedRecord(cfg, active.assembler, marked).Ok? {
          var fed := FeedRecord(cfg, active.assembler, marked).value;
          AssemblerStreams.StepCovers(cfg, active.assembler, Feed(marked));
          AdmitAllKeeps(active.(assembler := fed.0), fed.1, a.ready);
        }
      }
      if Act(cfg, g, a).stop.None? { ServeTidy(cfg, Act(cfg, g, a).gate, actions[1..]); }
    }
  }

  /** For every run: a request waits while the transaction that is open goes on, and the first
      record delivered between transactions afterwards is covered under the policy asked for (or
      the one in force, if that was asked for), which is then in force with nothing waiting. */
  lemma PolicyTakesEffect(cfg: Config, initial: DeleteMode, before: seq<Action>, mode: DeleteMode, inside: seq<Action>, rec: Record, ready: bool)
    requires var g := Serve(cfg, Fresh(initial), before).gate; Inside(cfg, Act(cfg, g, Request(mode)).gate, inside)
    ensures var g := Serve(cfg, Fresh(initial), before).gate;
      var waiting := Serve(cfg, Act(cfg, g, Request(mode)).gate, inside);
      var after := Act(cfg, waiting.gate, Deliver(rec, ready));
      var wanted := if mode.digest == g.current.digest then g.current else mode;
      waiting.gate.current == g.current &&
      (!waiting.gate.assembler.open.InTxn? ==>
        after.gate.current == wanted && after.gate.pending == None &&
        (!(after.stop.Some? && after.stop.value.Refused?) ==>
          rec.(policyEpoch := wanted.epoch, policyDigest := wanted.digest) in Covered(after.units) + OpenRecords(after.gate.assembler.open)))
  {
    var g := Serve(cfg, Fresh(initial), before).gate;
    var asked := Act(cfg, g, Request(mode)).gate;
    ServeTidy(cfg, Fresh(initial), before);
    ServeTidy(cfg, asked, inside);
    PolicyWaits(cfg, asked, inside);
    var w := Serve(cfg, asked, inside).gate;
    hide Serve, Inside;
    if !w.assembler.open.InTxn? { DeliveredUnder(cfg, w, rec, ready); }
  }

  /** A record delivered between transactions is covered under the policy that was waiting. */
  lemma DeliveredUnder(cfg: Config, g: Gate, rec: Record, ready: bool)
    requires !g.assembler.open.InTxn? && AssemblerStreams.Tidy(g.assembler)
    ensures var after := Act(cfg, g, Deliver(rec, ready));
      var wanted := if g.pending.Some? then g.pending.value else g.current;
      after.gate.current == wanted && after.gate.pending == None &&
      (!(after.stop.Some? && after.stop.value.Refused?) ==>
        rec.(policyEpoch := wanted.epoch, policyDigest := wanted.digest) in Covered(after.units) + OpenRecords(after.gate.assembler.open))
  {
    hide FeedRecord, AdmitAll, Covered, OpenRecords;
    var active := Activated(g, ready);
    var marked := Marked(rec, active.current);
    var fed := FeedRecord(cfg, active.assembler, marked);
    if fed.Ok? {
      AdmitAllKeeps(active.(assembler := fed.value.0), fed.value.1, ready);
      AssemblerStreams.StepCovers(cfg, active.assembler, Feed(marked));
      AdmitAllStops(active.(assembler := fed.value.0), fed.value.1, ready);
      ReleasedFirst(active.assembler.open, active.assembler.deferred, marked);
    }
  }

  lemma {:induction false} AdmitAllStops(g: Gate, units: seq<Unit>, ready: bool)
    ensures var stop := AdmitAll(g, units, ready).1; stop.Some? ==> stop == Some(Held)
    decreases |units|
  {
    if units != [] {
      var next := Admitted(g, units[0], ready);
      if next.Some? { AdmitAllStops(next.value, units[1..], ready); }
    }
  }

  lemma ReleasedFirst(open: Open, deferred: seq<Record>, rec: Record)
    requires !open.InTxn?
    ensures rec in OpenRecords(open) + AssemblerStreams.Released(false, deferred, rec)
  {
  }

  // ---------------------------------------------------------------------------
  // A terminal group waits for the completion machine
  // ---------------------------------------------------------------------------

  /** What a step commits beyond `g`, it may: a group that carries the terminal snapshot offset
      only when the completion machine is ready. */
  ghost predicate MayCommit(g: Gate, next: Gate, ready: bool) {
    Prefix(g.commits, next.commits) &&
    forall i :: |g.commits| <= i < |next.commits| ==>
      ready || forall u :: u in next.commits[i] ==> !(u.ControlUnit? && u.rec.kind.SnapshotBoundary?)
  }

  lemma CommittedMay(g: Gate, ready: bool)
    ensures MayCommit(g, Committed(g, ready), ready)
    ensures g.group != [] && (ready || forall u :: u in g.group ==> !(u.ControlUnit? && u.rec.kind.SnapshotBoundary?)) ==>
      Committed(g, ready) == g.(group := [], commits := g.commits + [g.group])
  {
    assert g.commits[..|g.commits|] == g.commits;
    assert (g.commits + [g.group])[..|g.commits|] == g.commits;
  }

  lemma MayTwice(a: Gate, b: Gate, c: Gate, ready: bool)
    requires MayCommit(a, b, ready) && MayCommit(b, c, ready)
    ensures MayCommit(a, c, ready)
  {
    assert c.commits[..|a.commits|] == c.commits[..|b.commits|][..|a.commits|];
    forall i | |a.commits| <= i < |c.commits|
      ensures ready || forall u :: u in c.commits[i] ==> !(u.ControlUnit? && u.rec.kind.SnapshotBoundary?)
    {
      if i < |b.commits| { assert c.commits[i] == c.commits[..|b.commits|][i] == b.commits[i]; }
    }
  }

  lemma {:induction false} AdmitAllMay(g: Gate, units: seq<Unit>, ready: bool)
    ensures MayCommit(g, AdmitAll(g, units, ready).0, ready)
    decreases |units|
  {
    assert g.commits[..|g.commits|] == g.commits;
    if units != [] {
      var next := Admitted(g, units[0], ready);
      if next.Some? {
        CommittedMay(g, ready);
        assert MayCommit(g, next.value, ready);
        AdmitAllMay(next.value, units[1..], ready);
        hide MayCommit;
        MayTwice(g, next.value, AdmitAll(next.value, units[1..], ready).0, ready);
      }
    }
  }

  /** For every step: a group that carries the terminal snapshot offset is committed only when
      the completion machine is ready, a request commits nothing, and a soft trigger commits
      every other group there is. */
  lemma TerminalWaits(cfg: Config, g: Gate, a: Action)
    ensures a.Request? ==> Act(cfg, g, a).gate.commits == g.commits
    ensures !a.Request? ==> MayCommit(g, Act(cfg, g, a).gate, a.ready)
    ensures a.Close? && g.group != [] && (a.ready || forall u :: u in g.group ==> !(u.ControlUnit? && u.rec.kind.SnapshotBoundary?)) ==>
      Act(cfg, g, a).gate == g.(group := [], commits := g.commits + [g.group])
  {
    hide FeedRecord, FeedBoundary, AdmitAll, Committed;
    assert g.commits[..|g.commits|] == g.commits;
    match a {
      case Request(mode) =>
      case Close(ready) => CommittedMay(g, ready);
      case Announce(rec, ready) =>
        var fed := FeedBoundary(g.assembler, rec);
        if fed.Ok? { AdmitAllMay(g.(assembler := fed.value.0), fed.value.1, ready); }
      case Deliver(rec, ready) =>
        var active := Activated(g, ready);
        if g.pending.Some? { CommittedMay(g.(current := g.pending.value, pending := None), ready); }
        assert MayCommit(g, active, ready);
        var fed := FeedRecord(cfg, active.assembler, Marked(rec, active.current));
        if fed.Ok? {
          var started := active.(assembler := fed.value.0);
          AdmitAllMay(started, fed.value.1, ready);
          assert MayCommit(g, started, ready);
          MayTwice(g, started, AdmitAll(started, fed.value.1, ready).0, ready);
        }
    }
  }

  // ---------------------------------------------------------------------------
  // The groups are the emitted units in order
  // ---------------------------------------------------------------------------

  /** Everything admitted so far: the committed groups, then the one that is filling. */
  function Flow(g: Gate): seq<Unit> {
    Join(g.commits) + g.group
  }

  lemma CommittedFlow(g: Gate, ready: bool)
    ensures Flow(Committed(g, ready)) == Flow(g)
  {
    assert (g.commits + [g.group])[..|g.commits|] == g.commits;
  }

  lemma {:induction false} AdmitAllFlow(g: Gate, units: seq<Unit>, ready: bool)
    ensures var (next, stop) := AdmitAll(g, units, ready);
      Prefix(Flow(next), Flow(g) + units) && (stop.None? ==> Flow(next) == Flow(g) + units)
    decreases |units|
  {
    hide Committed, Join, OffPhase;
    if units != [] {
      CommittedFlow(g, ready);
      var admitted := Admitted(g, units[0], ready);
      if admitted.Some? {
        var clear := if OffPhase(g.group, units[0]) then Committed(g, ready) else g;
        assert Flow(admitted.value) == Flow(clear) + [units[0]];
        assert Flow(g) + [units[0]] + units[1..] == Flow(g) + units;
        AdmitAllFlow(admitted.value, units[1..], ready);
      }
    }
  }

  lemma ActFlow(cfg: Config, g: Gate, action: Action)
    ensures var r := Act(cfg, g, action);
      Prefix(Flow(r.gate), Flow(g) + r.units) && (r.stop.None? ==> Flow(r.gate) == Flow(g) + r.units)
  {
    hide FeedRecord, FeedBoundary, AdmitAll, Committed, Join;
    assert Flow(g) + [] == Flow(g);
    match action {
      case Request(mode) =>
      case Close(ready) => CommittedFlow(g, ready);
      case Announce(rec, ready) => TakenFlow(g, FeedBoundary(g.assembler, rec), ready);
      case Deliver(rec, ready) =>
        if g.pending.Some? { CommittedFlow(g.(current := g.pending.value, pending := None), ready); }
        var active := Activated(g, ready);
        TakenFlow(active, FeedRecord(cfg, active.assembler, Marked(rec, active.current)), ready);
    }
  }

  lemma TakenFlow(g: Gate, fed: Fed, ready: bool)
    ensures var r := Taken(g, fed, ready);
      Prefix(Flow(r.gate), Flow(g) + r.units) && (r.stop.None? ==> Flow(r.gate) == Flow(g) + r.units)
  {
    hide AdmitAll, Join;
    if fed.Ok? { AdmitAllFlow(g.(assembler := fed.value.0), fed.value.1, ready); } else { assert Flow(g) + [] == Flow(g); }
  }

  /** Groups lose, repeat and reorder nothing: the committed groups and the open one are the
      emitted units in order, up to where a run that stopped had come. */
  lemma {:induction false} GroupsInOrder(cfg: Config, g: Gate, actions: seq<Action>)
    ensures var r := Serve(cfg, g, actions);
      Prefix(Flow(r.gate), Flow(g) + r.units) && (r.stop.None? ==> Flow(r.gate) == Flow(g) + r.units)
    decreases |actions|
  {
    hide Act, Flow;
    if actions == [] {
      assert Flow(g) + [] == Flow(g);
    } else {
      ActFlow(cfg, g, actions[0]);
      var first := Act(cfg, g, actions[0]);
      if first.stop.None? {
        var rest := Serve(cfg, first.gate, actions[1..]);
        GroupsInOrder(cfg, first.gate, actions[1..]);
        assert Flow(g) + first.units + rest.units == Flow(g) + (first.units + rest.units);
      }
    }
  }

  // ---------------------------------------------------------------------------
  // The applier
  // ---------------------------------------------------------------------------

  predicate HasBoundary(u: Assembler.CompleteUnit) {
    exists r :: r in u.records && r.kind.SnapshotBoundary?
  }

  predicate AnyBoundary(group: seq<Assembler.CompleteUnit>) {
    exists u :: u in group && HasBoundary(u)
  }

  predicate IsSnapshotUnit(u: Assembler.CompleteUnit) {
    (u.kind.SnapshotChunk? && !u.incremental) || HasBoundary(u)
  }

  /** Units that are the specified ones with the rows staged for them, under numbers up to `hi`. */
  ghost predicate Filed(units: seq<Assembler.CompleteUnit>, wholes: seq<Unit>, p: Assembler.Policy, staged: Assembler.Staged, hi: nat) {
    Assembler.AllRepresent(units, wholes, p, staged) &&
    forall u :: u in units && u.spillSeq.Some? ==> u.spillSeq.value <= hi
  }

  ghost predicate GroupsFiled(commits: seq<seq<Assembler.CompleteUnit>>, past: seq<seq<Unit>>,
                              p: Assembler.Policy, staged: Assembler.Staged, hi: nat)
  {
    |commits| == |past| && forall i :: 0 <= i < |commits| ==> Filed(commits[i], past[i], p, staged, hi)
  }

  /** What a unit keeps for acknowledgement still tells its phase. */
  lemma SamePhase(u: Assembler.CompleteUnit, whole: Unit, p: Assembler.Policy, staged: Assembler.Staged, mode: DeleteMode)
    requires Assembler.Represents(u, whole, p, staged) && Fits(whole, mode)
    ensures HasBoundary(u) <==> Terminal(whole)
    ensures IsSnapshotUnit(u) <==> Initial(whole)
  {
    hide Assembler.Holds, Assembler.AllStamped, Carries, Touched, Delivered, Refusals, SumBytes, MaxLsn, CommitLsn;
    if Terminal(whole) { assert whole.rec in u.records; }
  }

  lemma SameBlocked(group: seq<Assembler.CompleteUnit>, whole: seq<Unit>, p: Assembler.Policy, staged: Assembler.Staged, mode: DeleteMode)
    requires Assembler.AllRepresent(group, whole, p, staged) && AllFit(whole, mode)
    ensures |group| == |whole|
    ensures forall ready :: Blocked(whole, ready) <==> !ready && AnyBoundary(group)
    ensures group != [] ==> (IsSnapshotUnit(group[0]) <==> Initial(whole[0]))
  {
    hide Assembler.Represents, Fits, HasBoundary, Terminal, Initial, IsSnapshotUnit;
    forall i | 0 <= i < |group|
      ensures HasBoundary(group[i]) <==> Terminal(whole[i])
      ensures IsSnapshotUnit(group[i]) <==> Initial(whole[i])
    {
      assert whole[i] in whole;
      SamePhase(group[i], whole[i], p, staged, mode);
    }
    if w :| w in whole && Terminal(w) {
      var i :| 0 <= i < |whole| && whole[i] == w;
      assert group[i] in group;
    }
  }

  lemma FiledLater(units: seq<Assembler.CompleteUnit>, wholes: seq<Unit>, p: Assembler.Policy,
                   before: Assembler.Staged, after: Assembler.Staged, lo: nat, hi: nat)
    requires Filed(units, wholes, p, before, lo) && Assembler.Undisturbed(before, after, lo) && lo <= hi
    ensures Filed(units, wholes, p, after, hi)
  {
    forall i | 0 <= i < |units|
      ensures Assembler.Represents(units[i], wholes[i], p, after)
    {
      assert units[i] in units;
      assert Assembler.RowsAt(units[i].spillSeq, before) == Assembler.RowsAt(units[i].spillSeq, after);
    }
  }

  lemma GroupsLater(commits: seq<seq<Assembler.CompleteUnit>>, past: seq<seq<Unit>>, p: Assembler.Policy,
                    before: Assembler.Staged, after: Assembler.Staged, lo: nat, hi: nat)
    requires GroupsFiled(commits, past, p, before, lo) && Assembler.Undisturbed(before, after, lo) && lo <= hi
    ensures GroupsFiled(commits, past, p, after, hi)
  {
    hide Filed, Assembler.Undisturbed;
    forall i | 0 <= i < |commits|
      ensures Filed(commits[i], past[i], p, after, hi)
    {
      FiledLater(commits[i], past[i], p, before, after, lo, hi);
    }
  }

  /** The groups a run hands over, and the one still filling, are those of `gate`. */
  ghost predicate Shows(group: seq<Assembler.CompleteUnit>, commits: seq<seq<Assembler.CompleteUnit>>, gate: Gate,
                        p: Assembler.Policy, staged: Assembler.Staged)
  {
    Assembler.AllRepresent(group, gate.group, p, staged) && |commits| == |gate.commits| &&
    forall i :: 0 <= i < |commits| ==> Assembler.AllRepresent(commits[i], gate.commits[i], p, staged)
  }

  lemma FiledShows(group: seq<Assembler.CompleteUnit>, commits: seq<seq<Assembler.CompleteUnit>>, gate: Gate,
                   p: Assembler.Policy, staged: Assembler.Staged, hi: nat)
    requires Filed(group, gate.group, p, staged, hi) && GroupsFiled(commits, gate.commits, p, staged, hi)
    ensures Shows(group, commits, gate, p, staged)
  {
    hide Assembler.AllRepresent;
  }

  lemma FiledOneMore(units: seq<Assembler.CompleteUnit>, wholes: seq<Unit>, p: Assembler.Policy, staged: Assembler.Staged, hi: nat,
                     more: seq<Assembler.CompleteUnit>, added: seq<Unit>, k: nat)
    requires Filed(units, wholes, p, staged, hi) && Filed(more, added, p, staged, hi) && k < |more|
    ensures |more| == |added| && Filed(units + [more[k]], wholes + [added[k]], p, staged, hi)
  {
    hide Assembler.Represents;
    assert more[k] in more;
  }

  lemma FiledNone(p: Assembler.Policy, staged: Assembler.Staged, hi: nat)
    ensures Filed([], [], p, staged, hi) && GroupsFiled([], [], p, staged, hi)
  {
  }

  /** The applier's record loop, as far as the policy and the groups are concerned. */
  class Applier {
    const assembler: Assembler.TransactionAssembler
    var current: DeleteMode
    var pending: Option<DeleteMode>
    var group: seq<Assembler.CompleteUnit>
    var commits: seq<seq<Assembler.CompleteUnit>>
    ghost var filling: seq<Unit>
    ghost var past: seq<seq<Unit>>

    constructor (assembler: Assembler.TransactionAssembler, mode: DeleteMode)
      requires assembler.Valid() && assembler.Abs() == INITIAL
      ensures this.assembler == assembler && Valid() && Abs() == Fresh(mode)
    {
      hide Filed, GroupsFiled, Assembler.TransactionAssembler.Valid;
      this.assembler, current, pending := assembler, mode, None;
      group, commits, filling, past := [], [], [], [];
      new;
      FiledNone(assembler.policy, assembler.staged, assembler.closedSeq);
    }

    ghost function Abs(): Gate
      reads this, assembler, assembler.txn, assembler.chunk
    {
      Gate(current, pending, assembler.Abs(), filling, past)
    }

    /** The group and the committed groups are the specified ones. */
    ghost predicate Kept()
      reads this, assembler
    {
      Filed(group, filling, assembler.policy, assembler.staged, assembler.closedSeq) &&
      GroupsFiled(commits, past, assembler.policy, assembler.staged, assembler.closedSeq)
    }

    ghost predicate Valid()
      reads this, assembler, assembler.txn, assembler.chunk
    {
      assembler.Valid() && Steady(Abs()) && Kept()
    }

    method RequestDeletePolicy(mode: DeleteMode)
      requires Valid()
      modifies this`pending
      ensures Valid() && Abs() == Requested(old(Abs()), mode)
    {
      hide Filed, GroupsFiled, Clean, AllFit, AllWhole, Assembler.TransactionAssembler.Valid;
      if mode.digest == current.digest {
        pending := None;
        return;
      }
      pending := Some(mode);
    }

    /** `commit_group`, as far as what goes into one destination transaction. */
    method CommitGroup(ready: bool, ghost mode: DeleteMode)
      requires Kept() && AllFit(filling, mode)
      modifies this`group, this`commits, this`filling, this`past
      ensures Kept() && Abs() == Committed(old(Abs()), ready)
    {
      hide Filed, AllFit, AnyBoundary, Blocked, Assembler.TransactionAssembler.Abs;
      Tells(mode);
      if group == [] || (!ready && AnyBoundary(group)) { return; }
      commits, past := commits + [group], past + [filling];
      group, filling := [], [];
      FiledNone(assembler.policy, assembler.staged, assembler.closedSeq);
    }

    /** The units held tell the phase of the group and whether it can be held back. */
    lemma Tells(mode: DeleteMode)
      requires Kept() && AllFit(filling, mode)
      ensures |group| == |filling|
      ensures forall ready :: Blocked(filling, ready) <==> !ready && AnyBoundary(group)
      ensures group != [] ==> (IsSnapshotUnit(group[0]) <==> Initial(filling[0]))
    {
      hide AllFit, AnyBoundary, Blocked, Initial, IsSnapshotUnit, GroupsFiled;
      SameBlocked(group, filling, assembler.policy, assembler.staged, mode);
    }

    lemma Fit()
      requires Steady(Abs())
      ensures AllFit(filling, current)
    {
    }

    /** A waiting policy takes effect between transactions, and what was buffered under the
        one before it becomes its own destination transaction. */
    method ActivateAtBoundary(ready: bool)
      requires Valid()
      modifies this`pending, this`current, this`group, this`commits, this`filling, this`past
      ensures Valid() && Abs() == Activated(old(Abs()), ready)
    {
      hide Steady, Filed, GroupsFiled, AllFit, Committed, Assembler.TransactionAssembler.Valid;
      Fit();
      ActivatedSteady(Abs(), ready);
      if pending.None? || assembler.txn != null { return; }
      var previous := current;
      current, pending := pending.value, None;
      assert group != [] <==> filling != [] by { Tells(previous); }
      if group != [] && previous.digest != current.digest { CommitGroup(ready, previous); }
    }

    /** `_admit_unit`: one group never mixes the initial snapshot with streaming. */
    method AddUnits(units: seq<Assembler.CompleteUnit>, ghost wholes: seq<Unit>, ready: bool) returns (stop: Option<Stop>)
      requires Valid() && AllFit(wholes, current)
      requires Filed(units, wholes, assembler.policy, assembler.staged, assembler.closedSeq)
      modifies this`group, this`commits, this`filling, this`past
      ensures Valid() && (Abs(), stop) == AdmitAll(old(Abs()), wholes, ready)
    {
      hide Steady, Filed, Fits, AnyBoundary, Initial, IsSnapshotUnit, GroupsFiled, Committed, Admitted, Assembler.TransactionAssembler.Valid;
      SameLength(units, wholes);
      for i := 0 to |units|
        invariant Valid() && |units| == |wholes| && current == old(current)
        invariant AdmitAll(old(Abs()), wholes, ready) == AdmitAll(Abs(), wholes[i..], ready)
      {
        ghost var was := Abs();
        assert wholes[i] in wholes && wholes[i..][1..] == wholes[i + 1..];
        var admitted := AddUnit(units[i], units, wholes, i, ready);
        if !admitted { return Some(Held); }
      }
      return None;
    }

    lemma SameLength(units: seq<Assembler.CompleteUnit>, wholes: seq<Unit>)
      requires Filed(units, wholes, assembler.policy, assembler.staged, assembler.closedSeq)
      ensures |units| == |wholes|
    {
    }

    lemma TellsOne(unit: Assembler.CompleteUnit, units: seq<Assembler.CompleteUnit>, wholes: seq<Unit>, k: nat)
      requires k < |units| == |wholes| && unit == units[k] && Fits(wholes[k], current)
      requires Filed(units, wholes, assembler.policy, assembler.staged, assembler.closedSeq)
      ensures IsSnapshotUnit(unit) <==> Initial(wholes[k])
    {
      hide Fits, IsSnapshotUnit, Initial;
      SamePhase(unit, wholes[k], assembler.policy, assembler.staged, current);
    }

    method AddUnit(unit: Assembler.CompleteUnit, ghost units: seq<Assembler.CompleteUnit>, ghost wholes: seq<Unit>, ghost k: nat,
                   ready: bool) returns (admitted: bool)
      requires Valid() && k < |units| == |wholes| && unit == units[k] && Fits(wholes[k], current)
      requires Filed(units, wholes, assembler.policy, assembler.staged, assembler.closedSeq)
      modifies this`group, this`commits, this`filling, this`past
      ensures Valid() && current == old(current)
      ensures var next := Admitted(old(Abs()), wholes[k], ready);
        admitted == next.Some? && Abs() == if admitted then next.value else old(Abs())
    {
      hide Steady, Filed, Fits, AllFit, AnyBoundary, Blocked, Initial, IsSnapshotUnit, GroupsFiled, Assembler.TransactionAssembler.Valid;
      AdmittedSteady(Abs(), wholes[k], ready);
      TellsOne(unit, units, wholes, k);
      Fit();
      Tells(current);
      if group != [] && IsSnapshotUnit(group[0]) != IsSnapshotUnit(unit) {
        if !ready && AnyBoundary(group) { return false; }
        CommitGroup(ready, current);
      }
      FiledOneMore(group, filling, assembler.policy, assembler.staged, assembler.closedSeq, units, wholes, k);
      group, filling := group + [unit], filling + [wholes[k]];
      return true;
    }

    /** Mark one record with the policy in force, feed it, and admit what comes out. */
    method HandleRecord(rec: Record, ready: bool) returns (stop: Option<Stop>)
      requires Valid() && !rec.kind.SnapshotBoundary?
      modifies this, assembler, assembler.txn, assembler.chunk
      ensures (assembler.txn == null || assembler.txn == old(assembler.txn) || fresh(assembler.txn)) &&
              (assembler.chunk == null || assembler.chunk == old(assembler.chunk) || fresh(assembler.chunk))
      ensures Follows(stop, Act(assembler.cfg, old(Abs()), Deliver(rec, ready)))
    {
      hide FeedRecord, Activated, Steady, Filed, GroupsFiled, Shows, AllFit, Clean, Assembler.AllRepresent, Assembler.TransactionAssembler.Valid;
      ActivateAtBoundary(ready);
      ghost var active, before, lo := Abs(), assembler.staged, assembler.closedSeq;
      var marked := Marked(rec, current);
      var r := assembler.Feed(marked);
      ghost var fed := FeedRecord(assembler.cfg, active.assembler, marked);
      if fed.Ok? {
        CleanNow(active);
        FeedRecordFits(assembler.cfg, active.assembler, marked, active.current);
      }
      stop := Admit(r, fed, active, before, lo, ready);
    }

    method HandleBoundary(rec: Record, ready: bool) returns (stop: Option<Stop>)
      requires Valid()
      modifies this, assembler, assembler.txn, assembler.chunk
      ensures (assembler.txn == null || assembler.txn == old(assembler.txn) || fresh(assembler.txn)) &&
              (assembler.chunk == null || assembler.chunk == old(assembler.chunk) || fresh(assembler.chunk))
      ensures Follows(stop, Act(assembler.cfg, old(Abs()), Announce(rec, ready)))
    {
      hide FeedBoundary, Steady, Filed, GroupsFiled, Shows, AllFit, Clean, Assembler.AllRepresent, Assembler.TransactionAssembler.Valid;
      ghost var was, before, lo := Abs(), assembler.staged, assembler.closedSeq;
      var r := assembler.FeedSnapshotBoundary(rec);
      ghost var fed := FeedBoundary(was.assembler, rec);
      CleanNow(was);
      BoundaryFits(was.assembler, rec, was.current);
      stop := Admit(r, fed, was, before, lo, ready);
    }

    /** Either way the groups are the specified ones; the run goes on from the specified state. */
    ghost predicate Follows(stop: Option<Stop>, spec: Served)
      reads this, assembler, assembler.txn, assembler.chunk
    {
      stop == spec.stop && Shows(group, commits, spec.gate, assembler.policy, assembler.staged) &&
      (stop.None? ==> Valid() && Abs() == spec.gate)
    }

    method Admit(r: Checked<seq<Assembler.CompleteUnit>>, ghost fed: Fed, ghost was: Gate, ghost before: Assembler.Staged, ghost lo: nat,
                 ready: bool) returns (stop: Option<Stop>)
      requires r.Ok? ==> assembler.Valid()
      requires assembler.Refines(r, fed, before, lo)
      requires Steady(was) && was == Abs().(assembler := was.assembler)
      requires Filed(group, filling, assembler.policy, before, lo) && GroupsFiled(commits, past, assembler.policy, before, lo)
      requires fed.Ok? ==> AllFit(fed.value.1, was.current) && Clean(fed.value.0, was.current)
      modifies this`group, this`commits, this`filling, this`past
      ensures Follows(stop, Taken(was, fed, ready))
    {
      hide Filed, GroupsFiled, Shows, AllFit, Clean, AllWhole, OnePhase, AdmitAll, Assembler.AllRepresent, Assembler.Undisturbed, Assembler.Sequenced,
        Assembler.TransactionAssembler.Valid, Assembler.TransactionAssembler.Sane;
      ghost var hi := if r.Ok? then assembler.closedSeq else lo;
      FiledLater(group, filling, assembler.policy, before, assembler.staged, lo, hi);
      GroupsLater(commits, past, assembler.policy, before, assembler.staged, lo, hi);
      if r.Err? {
        FiledShows(group, commits, was, assembler.policy, assembler.staged, hi);
        return Some(Refused(r.error));
      }
      FiledNow(r.value, fed.value.1, lo);
      stop := AddUnits(r.value, fed.value.1, ready);
      FiledShows(group, commits, Abs(), assembler.policy, assembler.staged, assembler.closedSeq);
    }

    lemma Showing()
      requires Valid()
      ensures Shows(group, commits, Abs(), assembler.policy, assembler.staged)
    {
      hide Filed, GroupsFiled, Shows, Steady, Assembler.TransactionAssembler.Valid;
      FiledShows(group, commits, Abs(), assembler.policy, assembler.staged, assembler.closedSeq);
    }

    lemma FiledNow(units: seq<Assembler.CompleteUnit>, wholes: seq<Unit>, lo: nat)
      requires Assembler.AllRepresent(units, wholes, assembler.policy, assembler.staged)
      requires Assembler.Sequenced(units, lo, assembler.closedSeq)
      ensures Filed(units, wholes, assembler.policy, assembler.staged, assembler.closedSeq)
    {
      hide Assembler.AllRepresent;
    }
  }

  lemma CleanNow(g: Gate)
    requires Steady(g)
    ensures Clean(g.assembler, g.current)
  {
  }

  lemma ServeOne(cfg: Config, g: Gate, actions: seq<Action>, whole: Served, done: seq<Unit>)
    requires actions != [] && whole == Onward(done, Serve(cfg, g, actions))
    ensures var first := Act(cfg, g, actions[0]);
      if first.stop.Some? then whole == Onward(done, first)
      else whole == Onward(done + first.units, Serve(cfg, first.gate, actions[1..]))
  {
    hide Act;
    var first := Act(cfg, g, actions[0]);
    if first.stop.None? {
      var rest := Serve(cfg, first.gate, actions[1..]);
      assert done + (first.units + rest.units) == done + first.units + rest.units;
    }
  }

  /** A whole run over a new assembler, whatever is spilled: the groups committed, the one
      still filling and the reason it stopped are those of `Serve`. */
  method Apply(cfg: Config, policy: Assembler.Policy, spillEnabled: bool, spillEvents: int, spillBytes: int, accepts: nat -> bool,
               mode: DeleteMode, actions: seq<Action>)
    returns (group: seq<Assembler.CompleteUnit>, commits: seq<seq<Assembler.CompleteUnit>>, stop: Option<Stop>, staged: Assembler.Staged)
    requires Decoded(actions)
    ensures var whole := Serve(cfg, Fresh(mode), actions);
      stop == whole.stop && Shows(group, commits, whole.gate, policy, staged) && AllWhole(whole.gate.commits)
  {
    hide Act, AllWhole, Shows, Filed, GroupsFiled, Steady, Assembler.TransactionAssembler.Valid;
    var assembler := new Assembler.TransactionAssembler(cfg, policy, spillEnabled, spillEvents, spillBytes, accepts);
    var applier := new Applier(assembler, mode);
    ghost var done, whole := [], Serve(cfg, Fresh(mode), actions);
    StartsSteady(cfg, mode, actions);
    for i := 0 to |actions|
      invariant applier.Valid() && fresh(applier) && fresh(assembler) && applier.assembler == assembler
      invariant assembler.cfg == cfg && assembler.policy == policy
      invariant (assembler.txn == null || fresh(assembler.txn)) && (assembler.chunk == null || fresh(assembler.chunk))
      invariant whole == Onward(done, Serve(cfg, applier.Abs(), actions[i..]))
    {
      ghost var was := applier.Abs();
      assert actions[i..][1..] == actions[i + 1..] && actions[i] in actions;
      ServeOne(cfg, was, actions[i..], whole, done);
      stop := Perform(applier, actions[i]);
      if stop.Some? { return applier.group, applier.commits, stop, assembler.staged; }
      done := done + Act(cfg, was, actions[i]).units;
    }
    applier.Showing();
    return applier.group, applier.commits, None, assembler.staged;
  }

  lemma StartsSteady(cfg: Config, mode: DeleteMode, actions: seq<Action>)
    requires Decoded(actions)
    ensures AllWhole(Serve(cfg, Fresh(mode), actions).gate.commits)
  {
    OnePolicyPerTransaction(cfg, Fresh(mode), actions);
  }

  method Perform(applier: Applier, action: Action) returns (stop: Option<Stop>)
    requires applier.Valid() && (action.Deliver? ==> !action.rec.kind.SnapshotBoundary?)
    modifies applier, applier.assembler, applier.assembler.txn, applier.assembler.chunk
    ensures (applier.assembler.txn == null || applier.assembler.txn == old(applier.assembler.txn) || fresh(applier.assembler.txn)) &&
            (applier.assembler.chunk == null || applier.assembler.chunk == old(applier.assembler.chunk) || fresh(applier.assembler.chunk))
    ensures applier.Follows(stop, Act(applier.assembler.cfg, old(applier.Abs()), action))
  {
    hide Shows, Filed, GroupsFiled, Steady, AllFit, Taken, Activated, Assembler.TransactionAssembler.Valid;
    match action {
      case Request(mode) =>
        applier.RequestDeletePolicy(mode);
        applier.Showing();
        stop := None;
      case Close(ready) =>
        applier.Fit();
        CommittedSteady(applier.Abs(), ready);
        applier.CommitGroup(ready, applier.current);
        applier.Showing();
        stop := None;
      case Announce(rec, ready) => stop := applier.HandleBoundary(rec, ready);
      case Deliver(rec, ready) => stop := applier.HandleRecord(rec, ready);
    }
  }
}
