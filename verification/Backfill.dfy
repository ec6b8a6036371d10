/** Backfill coordination of src/cdc_flight/backfill.py as it runs: admission, the successor
    queue, and the outbox that carries a durable intent to the source.  The destination
    database and the source's signal table are separate, and a process may die between any
    two of their commits. */
module BackfillCoordination {
  import opened Options
  import opened BackfillModel

  /** The source's signal table: an insert with a known id does nothing. */
  type Source = map<string, seq<Table>>

  /** Every source row comes from a recorded intent with the same tables, and every
      acknowledged intent has its row. */
  ghost predicate Outbox(intents: map<string, Intent>, source: Source) {
    (forall s :: s in source ==> s in intents && intents[s].tables == source[s]) &&
    (forall s :: s in intents && intents[s].published ==> s in source)
  }

  ghost predicate SourceKept(a: Source, b: Source) {
    forall s :: s in a ==> s in b && b[s] == a[s]
  }

  /** Only signals and modes of runs may differ. */
  ghost predicate SameShape(a: Db, b: Db) {
    a.runs.Keys == b.runs.Keys && a.claims == b.claims && a.queue == b.queue && a.intents == b.intents &&
    forall id :: id in a.runs ==> b.runs[id].table == a.runs[id].table && b.runs[id].state == a.runs[id].state
  }

  lemma SameShapeKeeps(a: Db, b: Db)
    requires Good(a) && SameShape(a, b)
    ensures Good(b)
  {
    assert forall t :: ClaimOf(b, t) == ClaimOf(a, t);
  }

  // ---------------------------------------------------------------------------
  // Admission
  // ---------------------------------------------------------------------------

  /** Each table once, in order of first mention. */
  function Dedupe(tables: seq<Table>): (once: seq<Table>)
    ensures forall t :: t in once <==> t in tables
    ensures forall i, j :: 0 <= i < j < |once| ==> once[i] != once[j]
  {
    if tables == [] then [] else
      var front := Dedupe(tables[..|tables| - 1]);
      var last := tables[|tables| - 1];
      assert tables == tables[..|tables| - 1] + [last];
      if last in front then front else front + [last]
  }

  /** `a` is mentioned where `b` has not been yet. */
  ghost predicate Earlier(tables: seq<Table>, a: Table, b: Table) {
    exists p :: 0 <= p < |tables| && tables[p] == a && b !in tables[..p]
  }

  /** Each of the tables once, in order of first mention. */
  ghost predicate FirstMentions(once: seq<Table>, tables: seq<Table>) {
    (forall t :: t in once <==> t in tables) &&
    forall i, j :: 0 <= i < j < |once| ==> once[i] != once[j] && Earlier(tables, once[i], once[j])
  }

  lemma {:induction false} DedupeMentions(tables: seq<Table>)
    ensures FirstMentions(Dedupe(tables), tables)
  {
    if tables != [] {
      var rest, last := tables[..|tables| - 1], tables[|tables| - 1];
      var front, once := Dedupe(rest), Dedupe(tables);
      DedupeMentions(rest);
      forall i, j | 0 <= i < j < |once|
        ensures Earlier(tables, once[i], once[j])
      {
        if j < |front| {
          var p :| 0 <= p < |rest| && rest[p] == front[i] && front[j] !in rest[..p];
          assert tables[..p] == rest[..p] && tables[p] == front[i];
        } else {
          assert front[i] in rest && last !in rest;
          var p :| 0 <= p < |rest| && rest[p] == front[i];
          assert tables[p] == front[i] && tables[..p] == rest[..p];
        }
      }
    }
  }

  predicate IsActiveOf(db: Db, id: string, t: Table) {
    id in db.runs && Active(db.runs[id]) && db.runs[id].table == t
  }

  /** The active run of a table, if any. */
  function ActiveId(db: Db, t: Table): (found: Option<string>)
    requires RunsUnique(db)
    ensures found.Some? ==> IsActiveOf(db, found.value, t)
    ensures found.None? ==> forall id :: !IsActiveOf(db, id, t)
  {
    if exists id :: id in db.runs && IsActiveOf(db, id, t) then
      var id :| id in db.runs && IsActiveOf(db, id, t);
      Some(id)
    else None
  }

  /** `BackfillRepository.request`: a table's active run absorbs the request (a full refresh
      takes it over only before loading started); otherwise a new run begins. */
  function RequestOne(db: Db, t: Table, mode: Mode, ids: Table -> string): Attempt<(Db, string)>
    requires RunsUnique(db)
  {
    match ActiveId(db, t)
    case Some(id) =>
      if mode.Full? && (db.runs[id].state.Requested? || db.runs[id].state.Preparing?)
      then Ok((db.(runs := db.runs[id := db.runs[id].(mode := Full)]), id)) else Ok((db, id))
    case None =>
      if ids(t) in db.runs then Err(RunIdTaken)
      else Ok((db.(runs := db.runs[ids(t) := Run(t, mode, Requested, None, false)]), ids(t)))
  }

  /** A request for a table with an active run: a full refresh takes over one not loading yet. */
  function Taken(db: Db, id: string, mode: Mode): Db
    requires id in db.runs
  {
    var run := db.runs[id];
    if mode.Full? && (run.state.Requested? || run.state.Preparing?) then db.(runs := db.runs[id := run.(mode := Full)]) else db
  }

  /** Every run is still there, in its state and correlated as it was. */
  ghost predicate RunsKept(a: Db, b: Db) {
    forall o :: o in a.runs ==>
      o in b.runs && b.runs[o].signal == a.runs[o].signal && b.runs[o].table == a.runs[o].table &&
      b.runs[o].state == a.runs[o].state
  }

  lemma RequestOneKeeps(db: Db, t: Table, mode: Mode, ids: Table -> string)
    requires Good(db) && RequestOne(db, t, mode, ids).Ok?
    ensures var (d, id) := RequestOne(db, t, mode, ids).value;
      Good(d) && IsActiveOf(d, id, t) && d.claims == db.claims && d.queue == db.queue && d.intents == db.intents &&
      RunsKept(db, d)
  {
    UniqueRuns(db);
    hide Good;
    if ActiveId(db, t).Some? {
      PromoteKeeps(db, ActiveId(db, t).value);
    } else {
      NewRunKeeps(db, ids(t), Run(t, mode, Requested, None, false));
    }
  }

  lemma PromoteKeeps(db: Db, id: string)
    requires Good(db) && id in db.runs
    ensures var d := db.(runs := db.runs[id := db.runs[id].(mode := Full)]); Good(d) && RunsKept(db, d)
  {
    SameShapeKeeps(db, db.(runs := db.runs[id := db.runs[id].(mode := Full)]));
  }

  lemma NewRunKeeps(db: Db, id: string, run: Run)
    requires Good(db) && id !in db.runs && run.state.Requested? && forall o :: !IsActiveOf(db, o, run.table)
    ensures var d := db.(runs := db.runs[id := run]); Good(d) && RunsKept(db, d)
  {
    var d := db.(runs := db.runs[id := run]);
    assert forall u :: ClaimOf(d, u) == ClaimOf(db, u);
    assert forall o :: o in db.runs ==> d.runs[o] == db.runs[o];
    forall a, b | a in d.runs && b in d.runs && Active(d.runs[a]) && Active(d.runs[b]) && d.runs[a].table == d.runs[b].table
      ensures a == b
    {
      assert a != id ==> IsActiveOf(db, a, d.runs[a].table);
      assert b != id ==> IsActiveOf(db, b, d.runs[b].table);
    }
  }

  /** The table has an active run correlated with `signal`. */
  ghost predicate Correlated(db: Db, t: Table, signal: string) {
    exists id :: IsActiveOf(db, id, t) && db.runs[id].signal == Some(signal)
  }

  lemma CorrelateOne(db: Db, id: string, t: Table, signal: string)
    requires Good(db) && IsActiveOf(db, id, t)
    ensures var d := SetSignal(db, id, Some(signal));
      Good(d) && Correlated(d, t, signal) && SameShape(db, d) && forall u :: Correlated(db, u, signal) ==> Correlated(d, u, signal)
  {
    var d := SetSignal(db, id, Some(signal));
    assert IsActiveOf(d, id, t);
    SameShapeKeeps(db, d);
    forall u | Correlated(db, u, signal)
      ensures Correlated(d, u, signal)
    {
      var o :| IsActiveOf(db, o, u) && db.runs[o].signal == Some(signal);
      assert IsActiveOf(d, o, u) && d.runs[o].signal == Some(signal);
    }
  }

  predicate NeedsRun(db: Db, t: Table) {
    forall id :: id in db.runs ==> !IsActiveOf(db, id, t)
  }

  /** The id picked for a new run of the i-th table is not taken, not even by an earlier
      table of the same request. */
  predicate FreshAt(db: Db, selected: seq<Table>, i: nat, ids: Table -> string)
    requires i < |selected|
  {
    NeedsRun(db, selected[i]) ==>
      ids(selected[i]) !in db.runs &&
      forall j :: 0 <= j < i && NeedsRun(db, selected[j]) ==> ids(selected[j]) != ids(selected[i])
  }

  /** No other signal correlates the table's active run. */
  ghost predicate Uncontested(db: Db, t: Table, signal: string) {
    forall id :: id in db.runs && IsActiveOf(db, id, t) ==> db.runs[id].signal.None? || db.runs[id].signal == Some(signal)
  }

  function Resignalled(run: Run, selected: seq<Table>, signal: string): Run {
    if Active(run) && run.table in selected then run.(signal := Some(signal)) else run
  }

  /** `d` is `db` with these tables admitted: their active runs correlated, new runs for
      the others, and every other run as it was. */
  ghost predicate Admits(db: Db, d: Db, selected: seq<Table>, signal: string, ids: Table -> string) {
    d.claims == db.claims && d.queue == db.queue && d.intents == db.intents &&
    (forall id :: id in db.runs ==> id in d.runs && d.runs[id] == Resignalled(db.runs[id], selected, signal)) &&
    (forall id :: id in d.runs && id !in db.runs ==> NewRun(db, d, selected, signal, ids, id)) &&
    (forall t :: t in selected && NeedsRun(db, t) ==>
      ids(t) !in db.runs && ids(t) in d.runs && d.runs[ids(t)] == Run(t, Incremental, Requested, Some(signal), false))
  }

  ghost predicate NewRun(db: Db, d: Db, selected: seq<Table>, signal: string, ids: Table -> string, id: string)
    requires id in d.runs
  {
    var t := d.runs[id].table;
    t in selected && NeedsRun(db, t) && id == ids(t) && d.runs[id] == Run(t, Incremental, Requested, Some(signal), false)
  }

  lemma AdmitsCorrelate(db: Db, d: Db, selected: seq<Table>, signal: string, ids: Table -> string)
    requires Admits(db, d, selected, signal, ids)
    ensures forall t :: t in selected ==> Correlated(d, t, signal)
  {
    forall t | t in selected
      ensures Correlated(d, t, signal)
    {
      if NeedsRun(db, t) {
        assert IsActiveOf(d, ids(t), t);
      } else {
        var id :| id in db.runs && IsActiveOf(db, id, t);
        assert IsActiveOf(d, id, t);
      }
    }
  }

  /** Part way through, the next table's active run is the one it had, and the id picked for
      a new one is taken exactly when it is not fresh. */
  lemma AdmitNext(db: Db, d: Db, selected: seq<Table>, i: nat, signal: string, ids: Table -> string)
    requires i < |selected| && selected[i] !in selected[..i] && Admits(db, d, selected[..i], signal, ids)
    ensures forall id :: IsActiveOf(d, id, selected[i]) <==> IsActiveOf(db, id, selected[i])
    ensures forall id :: IsActiveOf(d, id, selected[i]) ==> d.runs[id] == db.runs[id]
    ensures NeedsRun(db, selected[i]) ==> (ids(selected[i]) !in d.runs <==> FreshAt(db, selected, i, ids))
  {
    var t := selected[i];
    forall id
      ensures IsActiveOf(d, id, t) <==> IsActiveOf(db, id, t)
      ensures IsActiveOf(d, id, t) ==> d.runs[id] == db.runs[id]
    {
      if id in d.runs && id !in db.runs { assert NewRun(db, d, selected[..i], signal, ids, id); }
    }
    if NeedsRun(db, t) {
      if ids(t) in d.runs && ids(t) !in db.runs {
        assert NewRun(db, d, selected[..i], signal, ids, ids(t));
        var u := d.runs[ids(t)].table;
        var j :| 0 <= j < i && selected[j] == u;
      }
      if !FreshAt(db, selected, i, ids) && ids(t) !in db.runs {
        var j :| 0 <= j < i && NeedsRun(db, selected[j]) && ids(selected[j]) == ids(t);
        assert selected[j] in selected[..i];
      }
    }
  }

  lemma AdmitStep(db: Db, d: Db, selected: seq<Table>, i: nat, signal: string, ids: Table -> string, id: string, e: Db)
    requires i < |selected| && selected[i] !in selected[..i] && Admits(db, d, selected[..i], signal, ids)
    requires FreshAt(db, selected, i, ids)
    requires if NeedsRun(db, selected[i])
      then id == ids(selected[i]) && e == d.(runs := d.runs[id := Run(selected[i], Incremental, Requested, Some(signal), false)])
      else IsActiveOf(d, id, selected[i]) && e == d.(runs := d.runs[id := d.runs[id].(signal := Some(signal))])
    requires RunsUnique(db)
    ensures Admits(db, e, selected[..i + 1], signal, ids)
  {
    var t := selected[i];
    AdmitNext(db, d, selected, i, signal, ids);
    assert selected[..i + 1] == selected[..i] + [t];
    forall o | o in db.runs
      ensures o in e.runs && e.runs[o] == Resignalled(db.runs[o], selected[..i + 1], signal)
    {
      if Active(db.runs[o]) && db.runs[o].table == t { assert IsActiveOf(db, o, t); }
    }
    forall o | o in e.runs && o !in db.runs
      ensures NewRun(db, e, selected[..i + 1], signal, ids, o)
    {
      if o != id { assert NewRun(db, d, selected[..i], signal, ids, o); }
    }
    forall u | u in selected[..i + 1] && NeedsRun(db, u)
      ensures ids(u) !in db.runs && ids(u) in e.runs && e.runs[ids(u)] == Run(u, Incremental, Requested, Some(signal), false)
    {
      if u != t { assert u in selected[..i]; }
    }
  }

  /** Admit one signal's tables, one run each; `strict` refuses a run that another signal
      already correlates. It fails exactly on such a run or on an id already taken. */
  method AdmitAll(db: Db, selected: seq<Table>, signal: string, ids: Table -> string, strict: bool)
    returns (r: Attempt<Db>)
    requires Good(db) && forall i, j :: 0 <= i < j < |selected| ==> selected[i] != selected[j]
    ensures r.Ok? ==> Good(r.value) && Admits(db, r.value, selected, signal, ids)
    ensures r.Ok? ==> forall t :: t in selected ==> Correlated(r.value, t, signal)
    ensures r.Ok? <==> forall i :: 0 <= i < |selected| ==>
      FreshAt(db, selected, i, ids) && (strict ==> Uncontested(db, selected[i], signal))
    ensures r.Err? ==> r.error == RunIdTaken || (strict && r.error == OtherSignal)
    ensures r == Err(OtherSignal) ==> exists i :: 0 <= i < |selected| && !Uncontested(db, selected[i], signal)
  {
    hide Good, Correlated, Admits, NeedsRun, Uncontested;
    var work := db;
    AdmitsNone(db, signal, ids);
    assert selected[..0] == [];
    for i := 0 to |selected|
      invariant Good(work) && Admits(db, work, selected[..i], signal, ids)
      invariant forall j :: 0 <= j < i ==> FreshAt(db, selected, j, ids) && (strict ==> Uncontested(db, selected[j], signal))
    {
      var one := AdmitOne(work, selected[i], signal, ids, strict, db, selected, i);
      if one.Err? { return Err(one.error); }
      work := one.value;
    }
    assert selected[..|selected|] == selected;
    AdmitsCorrelate(db, work, selected, signal, ids);
    return Ok(work);
  }

  lemma AdmitsNone(db: Db, signal: string, ids: Table -> string)
    ensures Admits(db, db, [], signal, ids)
  {
  }

  method AdmitOne(work: Db, t: Table, signal: string, ids: Table -> string, strict: bool, ghost db: Db, ghost selected: seq<Table>,
                  ghost i: nat) returns (r: Attempt<Db>)
    requires Good(work) && Good(db) && i < |selected| && selected[i] == t && t !in selected[..i]
    requires Admits(db, work, selected[..i], signal, ids)
    ensures r.Ok? ==> Good(r.value) && Admits(db, r.value, selected[..i + 1], signal, ids)
    ensures r.Ok? <==> FreshAt(db, selected, i, ids) && (strict ==> Uncontested(db, t, signal))
    ensures r.Err? ==> r.error == RunIdTaken || (strict && r.error == OtherSignal && !Uncontested(db, t, signal))
  {
    UniqueRuns(work);
    UniqueRuns(db);
    hide Good;
    AdmitNext(db, work, selected, i, signal, ids);
    var requested := RequestOne(work, t, Incremental, ids);
    if requested.Err? { return Err(requested.error); }
    var (d, id) := requested.value;
    RequestOneKeeps(work, t, Incremental, ids);
    if strict && d.runs[id].signal != None && d.runs[id].signal != Some(signal) { return Err(OtherSignal); }
    CorrelateOne(d, id, t, signal);
    r := Ok(SetSignal(d, id, Some(signal)));
    SetTwice(work, d, id, t, signal);
    AdmitStep(db, work, selected, i, signal, ids, id, r.value);
  }

  lemma SetTwice(a: Db, d: Db, id: string, t: Table, signal: string)
    requires id in d.runs && (d == a || d == a.(runs := a.runs[id := Run(t, Incremental, Requested, None, false)]))
    ensures d != a ==> SetSignal(d, id, Some(signal)) == a.(runs := a.runs[id := Run(t, Incremental, Requested, Some(signal), false)])
  {
    assert a.runs[id := Run(t, Incremental, Requested, None, false)][id := Run(t, Incremental, Requested, Some(signal), false)]
        == a.runs[id := Run(t, Incremental, Requested, Some(signal), false)];
  }

  lemma UniqueRuns(db: Db)
    requires Good(db)
    ensures RunsUnique(db)
  {
  }

  lemma CorrelatedStays(a: Db, b: Db, signal: string)
    requires RunsKept(a, b)
    ensures forall t :: Correlated(a, t, signal) ==> Correlated(b, t, signal)
  {
    forall t | Correlated(a, t, signal)
      ensures Correlated(b, t, signal)
    {
      var o :| IsActiveOf(a, o, t) && a.runs[o].signal == Some(signal);
      assert IsActiveOf(b, o, t) && b.runs[o].signal == Some(signal);
    }
  }

  // ---------------------------------------------------------------------------
  // Intents and the queue
  // ---------------------------------------------------------------------------

  /** Record an intent once; recording it again with another payload fails. */
  function Record(db: Db, signal: string, tables: seq<Table>, kind: IntentKind): Attempt<Db> {
    if tables == [] then Err(EmptySignal)
    else if signal in db.intents then
      if db.intents[signal].tables == tables && db.intents[signal].kind == kind then Ok(db) else Err(IntentChanged)
    else Ok(db.(intents := db.intents[signal := Intent(tables, kind, false)]))
  }

  lemma RecordKeeps(db: Db, signal: string, tables: seq<Table>, kind: IntentKind, source: Source)
    requires Good(db) && Outbox(db.intents, source) && Record(db, signal, tables, kind).Ok?
    ensures var d := Record(db, signal, tables, kind).value;
      Good(d) && Outbox(d.intents, source) && IntentsKept(db.intents, d.intents) &&
      d.runs == db.runs && d.queue == db.queue && d.claims == db.claims &&
      signal in d.intents && d.intents[signal].tables == tables && d.intents[signal].kind == kind
  {
    var d := Record(db, signal, tables, kind).value;
    IntentsCover(db, d);
    assert forall t :: ClaimOf(d, t) == ClaimOf(db, t);
  }

  lemma IntentsCover(a: Db, b: Db)
    requires QueueCovered(a) && a.queue == b.queue && IntentsKept(a.intents, b.intents)
    ensures QueueCovered(b)
  {
    forall q | q in b.queue
      ensures Covered(b.queue[q], b.intents)
    {
      assert Covered(a.queue[q], a.intents);
    }
  }

  /** A request made while another signal is active waits; the same request id gathers
      tables until it is dispatched. */
  function Enqueue(queue: map<string, Request>, id: string, tables: seq<Table>): map<string, Request> {
    if id !in queue then queue[id := Request(tables, None)]
    else if queue[id].dispatched.Some? then queue
    else queue[id := Request(Dedupe(queue[id].tables + tables), None)]
  }

  /** What a queued request leaves: a request already dispatched is settled; otherwise it
      waits, for its tables and the new ones; and no other request changes. */
  ghost predicate Joins(before: map<string, Request>, after: map<string, Request>, id: string, tables: seq<Table>) {
    after.Keys == before.Keys + {id} && (forall q :: q in before && q != id ==> after[q] == before[q]) &&
    if id in before && before[id].dispatched.Some? then after[id] == before[id]
    else after[id].dispatched.None? && FirstMentions(after[id].tables, (if id in before then before[id].tables else []) + tables)
  }

  lemma EnqueueJoins(queue: map<string, Request>, id: string, tables: seq<Table>)
    requires FirstMentions(tables, tables)
    ensures Joins(queue, Enqueue(queue, id, tables), id, tables)
  {
    hide FirstMentions;
    assert [] + tables == tables;
    if id in queue { DedupeMentions(queue[id].tables + tables); }
  }

  lemma {:induction false} OnceMentions(tables: seq<Table>)
    requires forall i, j :: 0 <= i < j < |tables| ==> tables[i] != tables[j]
    ensures FirstMentions(tables, tables)
  {
    forall i, j | 0 <= i < j < |tables|
      ensures Earlier(tables, tables[i], tables[j])
    {
      assert tables[j] !in tables[..i];
    }
  }

  /** The request will be served with these tables: it waits for them, or the signal that
      dispatched it names them. */
  ghost predicate Promised(db: Db, id: string, tables: seq<Table>) {
    id in db.queue && Includes(db.queue[id].tables, tables) &&
    (db.queue[id].dispatched.Some? ==>
      db.queue[id].dispatched.value in db.intents && Includes(db.intents[db.queue[id].dispatched.value].tables, tables))
  }

  /** The id was used before, for a request dispatched without some of these tables. */
  predicate Spent(queue: map<string, Request>, id: string, tables: seq<Table>) {
    id in queue && queue[id].dispatched.Some? && exists t :: t in tables && t !in queue[id].tables
  }

  /** A request that was queued is served later exactly if its id was not spent. */
  lemma PromiseKept(a: Db, b: Db, c: Db, id: string, tables: seq<Table>)
    requires Joins(a.queue, b.queue, id, tables) && QueueKept(b.queue, c.queue) && Good(c)
    ensures Promised(c, id, tables) <==> !Spent(a.queue, id, tables)
  {
    assert id in b.queue && id in c.queue;
    assert Covered(c.queue[id], c.intents);
    if id in a.queue && a.queue[id].dispatched.Some? {
      assert c.queue[id] == a.queue[id];
    } else {
      var all := (if id in a.queue then a.queue[id].tables else []) + tables;
      assert forall t :: t in tables ==> t in all;
    }
  }

  /** One request, dispatched for `a.x` by the active signal. */
  const DISPATCHED := Db(
    map["r" := Run("a.x", Incremental, Requested, Some("s"), false)],
    map["s" := Intent(["a.x"], QueuedDispatch, true)],
    map["q" := Request(["a.x"], Some("s"))],
    map[])

  /** A request id can be spent: the same id asked again for `a.y` behind the active signal is
      answered `Queued`, and nothing is kept of it. */
  lemma SpentRequest(ids: Table -> string, newId: string)
    ensures Good(DISPATCHED) && Decide(DISPATCHED, ["a.y"], None, newId, ids) == Ok(Queued) && Spent(DISPATCHED.queue, "q", ["a.y"])
  {
    assert ActiveSignals(DISPATCHED) == {"s"} by { assert "r" in DISPATCHED.runs; }
    assert "a.y" in Dedupe(["a.y"]) && !Carried(DISPATCHED, "a.y");
    assert "a.y" in ["a.y"];
  }

  lemma EnqueueKeeps(db: Db, id: string, tables: seq<Table>)
    requires Good(db)
    ensures var d := db.(queue := Enqueue(db.queue, id, tables)); Good(d) && QueueKept(db.queue, d.queue)
  {
    var d := db.(queue := Enqueue(db.queue, id, tables));
    assert forall t :: ClaimOf(d, t) == ClaimOf(db, t);
    assert forall q :: q in db.queue ==> Includes(d.queue[q].tables, db.queue[q].tables);
  }

  function Waiting(queue: map<string, Request>): set<string> {
    set q | q in queue && queue[q].dispatched.None?
  }

  function Dispatched(queue: map<string, Request>, signal: string): map<string, Request> {
    map q | q in queue :: if queue[q].dispatched.None? then queue[q].(dispatched := Some(signal)) else queue[q]
  }

  lemma DispatchedKeeps(db: Db, signal: string)
    requires Good(db) && signal in db.intents
    requires forall q :: q in Waiting(db.queue) ==> Includes(db.intents[signal].tables, db.queue[q].tables)
    ensures var d := db.(queue := Dispatched(db.queue, signal));
      Good(d) && QueueKept(db.queue, d.queue) && Waiting(d.queue) == {}
  {
    var d := db.(queue := Dispatched(db.queue, signal));
    assert forall t :: ClaimOf(d, t) == ClaimOf(db, t);
    forall q | q in d.queue
      ensures Covered(d.queue[q], d.intents)
    {
      assert Covered(db.queue[q], db.intents);
      if db.queue[q].dispatched.None? { assert q in Waiting(db.queue); }
    }
  }

  // ---------------------------------------------------------------------------
  // The coordinator
  // ---------------------------------------------------------------------------

  datatype Admission = Nothing | Queued | Admitted(signal: string)

  /** How a call that writes outside its own transaction ended. */
  datatype End = Finished | Crashed | Failed(error: Error)

  /** No run is active but blocked ones, which own no live signal. */
  predicate Idle(db: Db) {
    forall id :: id in db.runs && Active(db.runs[id]) ==> db.runs[id].state.Blocked?
  }

  ghost predicate Onward(a: Db, s: Source, b: Db, t: Source) {
    IntentsKept(a.intents, b.intents) && QueueKept(a.queue, b.queue) && SourceKept(s, t)
  }

  lemma OnwardTwice(a: Db, s: Source, b: Db, t: Source, c: Db, u: Source)
    requires Onward(a, s, b, t) && Onward(b, t, c, u)
    ensures Onward(a, s, c, u)
  {
    forall q | q in a.queue
      ensures q in c.queue && Includes(c.queue[q].tables, a.queue[q].tables) && (a.queue[q].dispatched.Some? ==> c.queue[q] == a.queue[q])
    {
      assert q in b.queue;
    }
  }

  function Pending(intents: map<string, Intent>): set<string> {
    set s | s in intents && !intents[s].published
  }

  // ---------------------------------------------------------------------------
  // What becomes of a request
  // ---------------------------------------------------------------------------

  function ActiveSignals(db: Db): set<string> {
    set id | id in db.runs && Active(db.runs[id]) && db.runs[id].signal.Some? :: db.runs[id].signal.value
  }

  /** An active run of the table carries a signal. */
  predicate Carried(db: Db, t: Table) {
    exists id :: id in db.runs && IsActiveOf(db, id, t) && db.runs[id].signal.Some?
  }

  /** An active run of the table is not incremental. */
  predicate Otherwise(db: Db, t: Table) {
    exists id :: id in db.runs && IsActiveOf(db, id, t) && !db.runs[id].mode.Incremental?
  }

  /** A request waits behind an active signal that is not its own or does not carry all its
      tables, and behind a run of another mode. */
  predicate MustWait(db: Db, selected: seq<Table>, signal: string) {
    (ActiveSignals(db) != {} && (signal !in ActiveSignals(db) || exists t :: t in selected && !Carried(db, t))) ||
    exists t :: t in selected && Otherwise(db, t)
  }

  /** The signal asked for, else the active one, else a new one. */
  ghost function Chosen(db: Db, signalId: Option<string>, newId: string): string {
    if signalId.Some? then signalId.value
    else if ActiveSignals(db) != {} then var s :| s in ActiveSignals(db); s
    else newId
  }

  /** The intent recorded for the signal names another list of tables, another order of
      them, or another kind. */
  predicate Differs(db: Db, signal: string, selected: seq<Table>) {
    signal in db.intents && (db.intents[signal].tables != selected || db.intents[signal].kind != Admission)
  }

  ghost predicate AllFresh(db: Db, selected: seq<Table>, ids: Table -> string) {
    forall i :: 0 <= i < |selected| ==> FreshAt(db, selected, i, ids)
  }

  /** The intents once a signal is recorded: one more, unless the signal had one. */
  function NewIntent(intents: map<string, Intent>, signal: string, selected: seq<Table>, kind: IntentKind): map<string, Intent> {
    if signal in intents then intents else intents[signal := Intent(selected, kind, false)]
  }

  /** The outcome of a request, from the database it meets. */
  ghost function Decide(db: Db, tables: seq<Table>, signalId: Option<string>, newId: string, ids: Table -> string)
    : Attempt<Admission>
  {
    var selected, signal := Dedupe(tables), Chosen(db, signalId, newId);
    if tables == [] then Ok(Nothing)
    else if |ActiveSignals(db)| > 1 then Err(SeveralSignals)
    else if MustWait(db, selected, signal) then Ok(Queued)
    else if !AllFresh(db, selected, ids) then Err(RunIdTaken)
    else if Differs(db, signal, selected) then Err(IntentChanged)
    else Ok(Admitted(signal))
  }

  /** When a request waits: an active run under a signal stands in its way if the request asks
      for another signal or names a table without an active run under one, and so does any
      active run of one of its tables that is not incremental. */
  lemma QueuedIff(db: Db, tables: seq<Table>, signalId: Option<string>, newId: string, ids: Table -> string)
    requires |ActiveSignals(db)| <= 1 && tables != []
    ensures var signalled := exists id :: id in db.runs && !db.runs[id].state.Complete? && db.runs[id].signal.Some?;
      var own := forall id :: id in db.runs && !db.runs[id].state.Complete? && db.runs[id].signal.Some? ==>
        signalId.None? || db.runs[id].signal == signalId;
      var carried := forall t :: t in tables ==>
        exists id :: id in db.runs && !db.runs[id].state.Complete? && db.runs[id].table == t && db.runs[id].signal.Some?;
      var other := exists id :: id in db.runs && !db.runs[id].state.Complete? && db.runs[id].table in tables && !db.runs[id].mode.Incremental?;
      Decide(db, tables, signalId, newId, ids) == Ok(Queued) <==> (signalled && !(own && carried)) || other
  {
    var selected, signal := Dedupe(tables), Chosen(db, signalId, newId);
    SameEmpty(tables);
    forall id | id in db.runs && !db.runs[id].state.Complete? && db.runs[id].signal.Some?
      ensures ActiveSignals(db) == {db.runs[id].signal.value}
    {
      assert db.runs[id].signal.value in ActiveSignals(db);
      OnlySignal(ActiveSignals(db), db.runs[id].signal.value);
    }
    assert forall t :: Carried(db, t) <==>
      exists id :: id in db.runs && !db.runs[id].state.Complete? && db.runs[id].table == t && db.runs[id].signal.Some?;
    assert (exists t :: t in selected && Otherwise(db, t)) <==>
      exists id :: id in db.runs && !db.runs[id].state.Complete? && db.runs[id].table in tables && !db.runs[id].mode.Incremental? by {
      OtherModes(db, selected, tables);
    }
    if ActiveSignals(db) != {} {
      var s :| s in ActiveSignals(db);
      var id :| id in db.runs && Active(db.runs[id]) && db.runs[id].signal == Some(s);
    }
  }

  lemma OtherModes(db: Db, selected: seq<Table>, tables: seq<Table>)
    requires forall t :: t in selected <==> t in tables
    ensures (exists t :: t in selected && Otherwise(db, t)) <==>
      exists id :: id in db.runs && !db.runs[id].state.Complete? && db.runs[id].table in tables && !db.runs[id].mode.Incremental?
  {
    if t :| t in selected && Otherwise(db, t) {
      var id :| id in db.runs && IsActiveOf(db, id, t) && !db.runs[id].mode.Incremental?;
      assert db.runs[id].table in tables;
    }
    if id :| id in db.runs && !db.runs[id].state.Complete? && db.runs[id].table in tables && !db.runs[id].mode.Incremental? {
      assert IsActiveOf(db, id, db.runs[id].table) && db.runs[id].table in selected;
    }
  }

  /** A request over tables the active signal already carries is admitted exactly when it
      lists the tables of that signal's intent, in that order; a part of them, or another
      order, is refused. */
  lemma CarriedRequest(db: Db, tables: seq<Table>, s: string, newId: string, ids: Table -> string)
    requires tables != [] && ActiveSignals(db) == {s} && s in db.intents && db.intents[s].kind == Admission
    requires forall t :: t in tables ==> Carried(db, t) && !Otherwise(db, t)
    ensures Decide(db, tables, None, newId, ids) ==
      if Dedupe(tables) == db.intents[s].tables then Ok(Admitted(s)) else Err(IntentChanged)
  {
    var selected := Dedupe(tables);
    assert s in ActiveSignals(db);
    forall i | 0 <= i < |selected|
      ensures FreshAt(db, selected, i, ids)
    {
      assert selected[i] in tables && Carried(db, selected[i]);
    }
  }

  /** The first request of a run of the coordinator, a second one for part of its tables, and
      a third for the same tables in another order. */
  method PartOrOrderRefused() returns (first: Attempt<Admission>, part: Attempt<Admission>, order: Attempt<Admission>)
    ensures first == Ok(Admitted("s")) && part == Err(IntentChanged) && order == Err(IntentChanged)
  {
    var c := new Coordinator();
    hide Coordinator.Valid, Onward, Decide, Admits, Correlated, Dedupe;
    var ids := (t: Table) => t;
    FirstRequest(["a.x", "a.y"], "s", ids);
    first := c.RequestTables(["a.x", "a.y"], None, "q1", "s", ids);
    SecondRequests(c.db, ids);
    part := c.RequestTables(["a.x"], None, "q2", "s2", ids);
    order := c.RequestTables(["a.y", "a.x"], None, "q3", "s3", ids);
  }

  lemma SecondRequests(d: Db, ids: Table -> string)
    requires Admits(EMPTY.(intents := d.intents), d, Dedupe(["a.x", "a.y"]), "s", ids)
    requires "s" in d.intents && d.intents["s"].tables == Dedupe(["a.x", "a.y"]) && d.intents["s"].kind == Admission
    ensures Decide(d, ["a.x"], None, "s2", ids) == Err(IntentChanged)
    ensures Decide(d, ["a.y", "a.x"], None, "s3", ids) == Err(IntentChanged)
  {
    Pair();
    FreshSignals(EMPTY.(intents := d.intents), d, ["a.x", "a.y"], "s", ids);
    hide Admits, Decide, Dedupe, Carried, Otherwise, ActiveSignals;
    CarriedRequest(d, ["a.x"], "s", "s2", ids);
    CarriedRequest(d, ["a.y", "a.x"], "s", "s3", ids);
  }

  lemma Pair()
    ensures Dedupe(["a.x", "a.y"]) == ["a.x", "a.y"] && Dedupe(["a.x"]) == ["a.x"] && Dedupe(["a.y", "a.x"]) == ["a.y", "a.x"]
    ensures ["a.x", "a.y"] != ["a.y", "a.x"] && ["a.x"] != ["a.x", "a.y"]
  {
    assert ["a.x", "a.y"][..1] == ["a.x"] && ["a.x"][..0] == [] && ["a.y", "a.x"][..1] == ["a.y"] && ["a.y"][..0] == [];
    assert Dedupe([]) == [];
    assert Dedupe(["a.x"]) == ["a.x"] && Dedupe(["a.y"]) == ["a.y"];
    assert "a.x"[2] == 'x' && "a.y"[2] == 'y';
    assert ["a.x", "a.y"][0] != ["a.y", "a.x"][0];
  }

  /** A first request to an empty database is admitted when its ids are distinct. */
  lemma FirstRequest(tables: seq<Table>, newId: string, ids: Table -> string)
    requires tables != [] && forall t, u :: t in tables && u in tables && t != u ==> ids(t) != ids(u)
    ensures Decide(EMPTY, tables, None, newId, ids) == Ok(Admitted(newId))
  {
    assert ActiveSignals(EMPTY) == {};
    var selected := Dedupe(tables);
    forall i | 0 <= i < |selected|
      ensures FreshAt(EMPTY, selected, i, ids)
    {
      assert forall j :: 0 <= j < |selected| ==> selected[j] in tables;
    }
  }

  lemma FreshSignals(db: Db, d: Db, tables: seq<Table>, signal: string, ids: Table -> string)
    requires db.runs == map[] && tables != [] && Admits(db, d, tables, signal, ids)
    ensures ActiveSignals(d) == {signal} && forall t :: t in tables ==> Carried(d, t) && !Otherwise(d, t)
  {
    forall id | id in d.runs
      ensures d.runs[id].signal == Some(signal) && d.runs[id].mode.Incremental?
    {
      assert NewRun(db, d, tables, signal, ids, id);
    }
    forall t | t in tables
      ensures Carried(d, t)
    {
      assert NeedsRun(db, t) && IsActiveOf(d, ids(t), t);
    }
    assert signal in ActiveSignals(d) by {
      assert tables[0] in tables && NeedsRun(db, tables[0]);
      assert ids(tables[0]) in d.runs;
    }
  }

  lemma SameEmpty(tables: seq<Table>)
    ensures tables == [] <==> Dedupe(tables) == []
  {
    if tables != [] { assert tables[0] in Dedupe(tables); }
  }

  lemma OnlySignal(signals: set<string>, s: string)
    requires |signals| <= 1 && s in signals
    ensures signals == {s}
  {
    assert signals - {s} == {} by { assert |signals - {s}| == 0; }
  }

  /** A waiting request names the table. */
  predicate Awaited(queue: map<string, Request>, t: Table) {
    exists q :: q in Waiting(queue) && t in queue[q].tables
  }

  /** What a dispatch leaves: `selected` is exactly what was awaited, recorded as the intent of
      the signal, with a run under the signal for each. */
  ghost predicate Sends(a: Db, b: Db, selected: seq<Table>, signal: string, ids: Table -> string) {
    (forall t :: t in selected <==> Awaited(a.queue, t)) && b.intents == NewIntent(a.intents, signal, selected, QueuedDispatch) &&
    Admits(a.(intents := b.intents, queue := b.queue), b, selected, signal, ids) &&
    forall t :: t in selected ==> Correlated(b, t, signal)
  }

  /** No id is taken, and no two tables get the same. */
  ghost predicate NewIds(db: Db, ids: Table -> string) {
    (forall t :: ids(t) !in db.runs) && forall t, u :: t != u ==> ids(t) != ids(u)
  }

  lemma NewIdsFresh(db: Db, selected: seq<Table>, ids: Table -> string)
    requires forall i, j :: 0 <= i < j < |selected| ==> selected[i] != selected[j]
    ensures NewIds(db, ids) ==> AllFresh(db, selected, ids)
  {
  }

  lemma Covers(a: Db, b: Db, selected: seq<Table>, signal: string)
    requires b.queue == a.queue && signal in b.intents && b.intents[signal].tables == selected
    requires forall t :: t in selected <==> Awaited(a.queue, t)
    ensures forall q :: q in Waiting(b.queue) ==> Includes(b.intents[signal].tables, b.queue[q].tables)
  {
  }

  lemma Sent(a: Db, admitted: Db, recorded: Db, b: Db, selected: seq<Table>, signal: string, ids: Table -> string)
    requires Admits(a, admitted, selected, signal, ids) && (forall t :: t in selected <==> Awaited(a.queue, t))
    requires Record(admitted, signal, selected, QueuedDispatch) == Ok(recorded) && b == recorded.(queue := b.queue)
    ensures Sends(a, b, selected, signal, ids)
  {
    hide NeedsRun, Correlated, Awaited;
    AdmitsElsewhere(a, admitted, b, selected, signal, ids);
    AdmitsCorrelate(a.(intents := b.intents, queue := b.queue), b, selected, signal, ids);
  }

  lemma AdmitsElsewhere(a: Db, d: Db, b: Db, selected: seq<Table>, signal: string, ids: Table -> string)
    requires Admits(a, d, selected, signal, ids) && b.runs == d.runs && b.claims == d.claims
    ensures Admits(a.(intents := b.intents, queue := b.queue), b, selected, signal, ids)
  {
    var c := a.(intents := b.intents, queue := b.queue);
    forall t: Table
      ensures NeedsRun(c, t) == NeedsRun(a, t)
    {
      assert forall id :: IsActiveOf(c, id, t) == IsActiveOf(a, id, t);
    }
    forall id | id in b.runs && id !in c.runs
      ensures NewRun(c, b, selected, signal, ids, id)
    {
      assert NewRun(a, d, selected, signal, ids, id);
    }
  }

  /** A request that need not wait meets no run of another signal. */
  lemma NotWaiting(db: Db, selected: seq<Table>, signal: string)
    requires |ActiveSignals(db)| <= 1 && !MustWait(db, selected, signal)
    ensures forall i :: 0 <= i < |selected| ==> Uncontested(db, selected[i], signal)
  {
    forall i, id | 0 <= i < |selected| && id in db.runs && IsActiveOf(db, id, selected[i])
      ensures db.runs[id].signal.None? || db.runs[id].signal == Some(signal)
    {
      if db.runs[id].signal.Some? {
        assert db.runs[id].signal.value in ActiveSignals(db);
        OnlySignal(ActiveSignals(db), signal);
      }
    }
  }

  lemma SameIntents(db: Db, d: Db, selected: seq<Table>, signal: string, ids: Table -> string)
    requires Admits(db, d, selected, signal, ids)
    ensures d.intents == db.intents && d.queue == db.queue && d.claims == db.claims
  {
  }

  class Coordinator {
    var db: Db
    var source: Source

    constructor ()
      ensures Valid() && db == EMPTY && source == map[]
    {
      db, source := EMPTY, map[];
    }

    ghost predicate Valid()
      reads this
    {
      Good(db) && Outbox(db.intents, source)
    }

    /** Admit one signal set, or queue it behind the active signal. Which of the six outcomes
        it has is decided by the database before the call. */
    method RequestTables(tables: seq<Table>, signalId: Option<string>, requestId: string, newId: string,
                         ids: Table -> string) returns (r: Attempt<Admission>)
      requires Valid()
      modifies this`db
      ensures Valid() && Onward(old(db), source, db, source)
      ensures r == Decide(old(db), tables, signalId, newId, ids)
      ensures r.Err? || r.value.Nothing? ==> db == old(db)
      ensures r == Ok(Queued) ==> db == old(db).(queue := db.queue) && Joins(old(db).queue, db.queue, requestId, Dedupe(tables))
      ensures r.Ok? && r.value.Admitted? ==>
        Admits(old(db).(intents := db.intents), db, Dedupe(tables), r.value.signal, ids) &&
        r.value.signal in db.intents && db.intents[r.value.signal].tables == Dedupe(tables) &&
        db.intents[r.value.signal].kind == Admission &&
        db.intents == NewIntent(old(db).intents, r.value.signal, Dedupe(tables), Admission) &&
        forall t :: t in tables ==> Correlated(db, t, r.value.signal)
    {
      hide Good, Correlated, Admits, NeedsRun, Uncontested, FreshAt, Joins, FirstMentions;
      var selected := Dedupe(tables);
      SameEmpty(tables);
      if selected == [] { return Ok(Nothing); }
      var signals := ActiveSignals(db);
      if |signals| > 1 { return Err(SeveralSignals); }
      var current: Option<string> := None;
      if signals != {} {
        var s :| s in signals;
        OnlySignal(signals, s);
        current := Some(s);
      }
      var signal := if signalId.Some? then signalId.value else if current.Some? then current.value else newId;
      if MustWait(db, selected, signal) {
        EnqueueKeeps(db, requestId, selected);
        OnceMentions(selected);
        EnqueueJoins(db.queue, requestId, selected);
        db := db.(queue := Enqueue(db.queue, requestId, selected));
        return Ok(Queued);
      }
      NotWaiting(db, selected, signal);
      var admitted := AdmitAll(db, selected, signal, ids, true);
      if admitted.Err? { return Err(admitted.error); }
      SameIntents(db, admitted.value, selected, signal, ids);
      var recorded := Record(admitted.value, signal, selected, Admission);
      if recorded.Err? { return Err(recorded.error); }
      RecordKeeps(admitted.value, signal, selected, Admission, source);
      CorrelatedStays(admitted.value, recorded.value, signal);
      AdmitsElsewhere(db, admitted.value, recorded.value, selected, signal, ids);
      db := recorded.value;
      return Ok(Admitted(signal));
    }

    /** The tables of every waiting request. */
    method WaitingTables() returns (tables: seq<Table>)
      ensures forall t :: t in tables <==> Awaited(db.queue, t)
    {
      tables := [];
      var left := Waiting(db.queue);
      while left != {}
        invariant left <= Waiting(db.queue)
        invariant forall t :: t in tables <==> exists q :: q in Waiting(db.queue) - left && t in db.queue[q].tables
      {
        var q :| q in left;
        assert forall o :: o in Waiting(db.queue) - (left - {q}) <==> o in Waiting(db.queue) - left || o == q;
        tables, left := tables + db.queue[q].tables, left - {q};
      }
    }

    /** Dispatch every waiting request as one signal, once nothing but blocked runs is active:
        one intent over exactly the awaited tables, a run of each under the signal, and every
        waiting request settled by it. New ids are never refused. */
    method DispatchQueued(signal: string, ids: Table -> string) returns (r: Attempt<bool>)
      requires Valid()
      modifies this`db
      ensures Valid() && Onward(old(db), source, db, source)
      ensures r != Ok(true) ==> db == old(db)
      ensures r == Ok(true) ==>
        (forall id :: id in old(db).runs ==> old(db).runs[id].state.Complete? || old(db).runs[id].state.Blocked?) &&
        Idle(old(db)) && Waiting(old(db).queue) != {} && Waiting(db.queue) == {} && db.queue.Keys == old(db).queue.Keys &&
        (forall q :: q in db.queue && q !in Waiting(old(db).queue) ==> db.queue[q] == old(db).queue[q]) &&
        forall q :: q in Waiting(old(db).queue) ==> q in db.queue && db.queue[q] == old(db).queue[q].(dispatched := Some(signal))
      ensures r == Ok(true) ==> signal in db.intents && Sends(old(db), db, db.intents[signal].tables, signal, ids)
      ensures r == Ok(false) <==> !Idle(old(db)) || Waiting(old(db).queue) == {}
      ensures signal !in old(db).intents && NewIds(old(db), ids) && (exists t :: Awaited(old(db).queue, t)) ==> r.Ok?
    {
      hide Good, Correlated, Admits, NeedsRun;
      if !Idle(db) || Waiting(db.queue) == {} { return Ok(false); }
      var wanted := WaitingTables();
      var selected := Dedupe(wanted);
      NewIdsFresh(db, selected, ids);
      var admitted := AdmitAll(db, selected, signal, ids, false);
      if admitted.Err? { return Err(admitted.error); }
      SameIntents(db, admitted.value, selected, signal, ids);
      var recorded := Record(admitted.value, signal, selected, QueuedDispatch);
      if recorded.Err? {
        SameEmpty(wanted);
        return Err(recorded.error);
      }
      RecordKeeps(admitted.value, signal, selected, QueuedDispatch, source);
      Covers(db, recorded.value, selected, signal);
      DispatchedKeeps(recorded.value, signal);
      db := recorded.value.(queue := Dispatched(recorded.value.queue, signal));
      Sent(old(db), admitted.value, recorded.value, db, selected, signal, ids);
      return Ok(true);
    }

    /** Apply one pending source effect, then acknowledge it: two separate commits. */
    method Publish(s: string, crash: Crash) returns (end: End, rest: Crash)
      requires Valid() && s in Pending(db.intents)
      modifies this
      ensures Valid() && Onward(old(db), old(source), db, source)
      ensures db == old(db) || db == old(db).(intents := old(db).intents[s := old(db).intents[s].(published := true)])
      ensures end.Finished? ==> db.intents == old(db).intents[s := old(db).intents[s].(published := true)]
      ensures !end.Failed? && (end.Crashed? ==> crash.Some?) && (crash.None? ==> rest.None?)
    {
      if crash == Some(0) { return Crashed, crash; }
      if s !in source { source := source[s := db.intents[s].tables]; }
      if crash == Some(1) { return Crashed, Some(0); }
      MarkKeeps(db, s);
      db := db.(intents := db.intents[s := db.intents[s].(published := true)]);
      return Finished, if crash.Some? && crash.value >= 2 then Some(crash.value - 2) else None;
    }

    /** Publish everything pending. */
    method PublishAll(crash: Crash) returns (end: End, rest: Crash)
      requires Valid()
      modifies this
      ensures Valid() && Onward(old(db), old(source), db, source)
      ensures db == old(db).(intents := db.intents) && db.intents.Keys == old(db).intents.Keys
      ensures end.Finished? ==> Pending(db.intents) == {}
      ensures !end.Failed? && (end.Crashed? ==> crash.Some?) && (crash.None? ==> rest.None?)
    {
      hide Good, Outbox;
      rest := crash;
      var todo := Pending(db.intents);
      OnwardNow(db, source);
      while todo != {}
        invariant Valid() && Onward(old(db), old(source), db, source) && todo == Pending(db.intents)
        invariant db == old(db).(intents := db.intents) && db.intents.Keys == old(db).intents.Keys
        invariant crash.None? ==> rest.None?
      {
        var s :| s in todo;
        ghost var before, was := db, source;
        end, rest := Publish(s, rest);
        OnwardTwice(old(db), old(source), before, was, db, source);
        if end.Crashed? { return; }
        todo := todo - {s};
      }
      return Finished, rest;
    }

    /** `reconcile_signal_effects`: when it returns, nothing is pending and every intent has
        its source row. It ends because each dispatch empties the queue. */
    method Reconcile(dispatch: bool, crash: Crash, signals: nat -> string, ids: nat -> Table -> string)
      returns (end: End)
      requires Valid()
      modifies this
      ensures Valid() && Onward(old(db), old(source), db, source)
      ensures end.Finished? ==> Pending(db.intents) == {} && source.Keys == db.intents.Keys
      ensures end.Finished? ==> forall s :: s in source ==> source[s] == db.intents[s].tables
      ensures end.Finished? && dispatch ==> !Idle(db) || Waiting(db.queue) == {}
      ensures end.Crashed? ==> crash.Some?
      ensures end.Failed? ==> dispatch && !(signals(0) !in old(db).intents && NewIds(old(db), ids(0)) && exists t :: Awaited(old(db).queue, t))
    {
      hide Good, Onward, NewIds, Awaited, Sends;
      var rest, round := crash, 0;
      OnwardNow(db, source);
      while true
        invariant Valid() && Onward(old(db), old(source), db, source)
        invariant crash.None? ==> rest.None?
        invariant if round == 0 then db == old(db).(intents := db.intents) && db.intents.Keys == old(db).intents.Keys
                  else Waiting(db.queue) == {}
        decreases |Waiting(db.queue)|
      {
        ghost var before, was := db, source;
        end, rest := PublishAll(rest);
        OnwardTwice(old(db), old(source), before, was, db, source);
        if end.Crashed? { return; }
        if !dispatch { break; }
        if rest == Some(0) { return Crashed; }
        before, was := db, source;
        if round == 0 { SameRuns(old(db), db, ids(0)); }
        var dispatched := DispatchQueued(signals(round), ids(round));
        OnwardTwice(old(db), old(source), before, was, db, source);
        if dispatched.Err? { return Failed(dispatched.error); }
        if !dispatched.value { break; }
        if rest.Some? { rest := Some(rest.value - 1); }
        round := round + 1;
      }
      NothingPending(db.intents, source);
      return Finished;
    }

    /** Re-open interrupted scans: the runs of each acknowledged signal with a loading,
        keyed member move to a new signal with its own intent, all in one transaction. */
    method Rearm(newIds: string -> string) returns (r: Attempt<()>)
      requires Valid()
      modifies this`db
      ensures Valid() && Onward(old(db), source, db, source)
      ensures r.Err? ==> db == old(db)
      ensures db.queue == old(db).queue && db.claims == old(db).claims && db.runs.Keys == old(db).runs.Keys
      ensures r.Ok? ==> forall id :: id in Rearmable(old(db)) ==> Moved(db, id, newIds(old(db).runs[id].signal.value))
      ensures r.Ok? ==> forall id :: id in old(db).runs ==> db.runs[id] == Readdressed(old(db), id, newIds)
      ensures r.Ok? ==> forall s :: s in db.intents && s !in old(db).intents ==> Reopened(old(db), db.intents[s], s, newIds)
      ensures NewSignals(old(db).intents, newIds) ==> r.Ok?
    {
      var rearmed := RearmAll(db, newIds, source);
      if rearmed.Err? { return Err(rearmed.error); }
      RearmedAll(db, rearmed.value, newIds);
      db := rearmed.value;
      return Ok(());
    }

    /** A scheduled request for one table, in any mode. */
    method RequestRun(t: Table, mode: Mode, ids: Table -> string) returns (r: Attempt<string>)
      requires Valid()
      modifies this`db
      ensures Valid() && db.intents == old(db).intents && db.queue == old(db).queue
      ensures if r.Err? then db == old(db) else IsActiveOf(db, r.value, t)
      ensures r.Err? <==> NeedsRun(old(db), t) && ids(t) in old(db).runs
      ensures r.Ok? && NeedsRun(old(db), t) ==>
        r.value == ids(t) && db == old(db).(runs := old(db).runs[ids(t) := Run(t, mode, Requested, None, false)])
      ensures r.Ok? && !NeedsRun(old(db), t) ==>
        IsActiveOf(old(db), r.value, t) && db == Taken(old(db), r.value, mode)
    {
      var requested := RequestOne(db, t, mode, ids);
      if requested.Err? { return Err(requested.error); }
      RequestOneKeeps(db, t, mode, ids);
      hide Good, Outbox;
      var (d, id) := requested.value;
      db := d;
      return Ok(id);
    }

    /** Commit what a transaction computed, or keep what was there. */
    method Commit(computed: Attempt<Db>) returns (committed: bool)
      requires Valid()
      requires computed.Ok? ==> Good(computed.value) && computed.value.intents == db.intents && computed.value.queue == db.queue
      modifies this`db
      ensures Valid() && committed == computed.Ok? && db == (if computed.Ok? then computed.value else old(db))
      ensures db.intents == old(db).intents && db.queue == old(db).queue
    {
      if computed.Ok? { db := computed.value; }
      return computed.Ok?;
    }

    method Prepare(id: string) returns (committed: bool)
      requires Valid() && id in db.runs
      modifies this`db
      ensures Valid() && db.intents == old(db).intents && db.queue == old(db).queue
      ensures committed == PrepareRun(old(db), id).Ok?
      ensures if committed then Ok(db) == PrepareRun(old(db), id) else db == old(db)
    {
      if PrepareRun(db, id).Ok? { PrepareKeeps(db, id); }
      hide Good, Outbox, PrepareRun;
      committed := Commit(PrepareRun(db, id));
    }

    /** A notification for a table without an active run is ignored. */
    method ObserveNotification(n: Note) returns (committed: bool)
      requires Valid()
      modifies this`db
      ensures Valid() && db.intents == old(db).intents && db.queue == old(db).queue
      ensures !committed ==> db == old(db)
      ensures forall id :: n.table.Some? && IsActiveOf(old(db), id, n.table.value) ==>
        committed == Observe(old(db), id, n).Ok? && (committed ==> Ok(db) == Observe(old(db), id, n))
      ensures n.table.None? || (forall id :: !IsActiveOf(old(db), id, n.table.value)) ==> db == old(db)
    {
      if n.table.None? { return true; }
      var found := ActiveId(db, n.table.value);
      if found.None? { return true; }
      ObserveKeeps(db, found.value, n);
      hide Good, Outbox, Observe;
      committed := Commit(Observe(db, found.value, n));
    }

    method CompleteSwap(t: Table)
      requires Valid()
      modifies this`db
      ensures Valid() && db.intents == old(db).intents && db.queue == old(db).queue
      ensures forall id :: IsActiveOf(old(db), id, t) ==> Ok(db) == Swap(old(db), id)
      ensures forall id :: IsActiveOf(old(db), id, t) && Owning(old(db).runs[id].state) ==>
        id in db.runs && db.runs[id].state.Complete? && ClaimOf(db, t).Free?
      ensures (forall id :: IsActiveOf(old(db), id, t) ==> !Owning(old(db).runs[id].state)) ==> db == old(db)
    {
      var found := ActiveId(db, t);
      if found.None? { return; }
      SwapKeeps(db, found.value);
      hide Outbox, Swap;
      var _ := Commit(Swap(db, found.value));
    }

    method CompleteFullSwap(t: Table) returns (committed: bool)
      requires Valid()
      modifies this`db
      ensures Valid() && db.intents == old(db).intents && db.queue == old(db).queue
      ensures !committed ==> db == old(db)
      ensures forall id :: IsActiveOf(old(db), id, t) ==>
        committed == FullSwap(old(db), id).Ok? && (committed ==> Ok(db) == FullSwap(old(db), id))
      ensures (forall id :: !IsActiveOf(old(db), id, t)) ==> committed && db == old(db)
    {
      var found := ActiveId(db, t);
      if found.None? { return true; }
      if FullSwap(db, found.value).Ok? { FullSwapKeeps(db, found.value); }
      hide Good, Outbox, FullSwap;
      committed := Commit(FullSwap(db, found.value));
    }

    /** Another owner asks for a shadow, or gives it back. */
    method ClaimExternally(t: Table, kind: Owner, owner: string, give: bool) returns (committed: bool)
      requires Valid() && !kind.Backfill?
      modifies this`db
      ensures Valid() && db.intents == old(db).intents && db.queue == old(db).queue
      ensures committed <==> ClaimOf(old(db), t).Free? || ClaimOf(old(db), t) == Held(kind, owner)
      ensures committed ==> ClaimOf(db, t) == if give then Free else Held(kind, owner)
      ensures forall u :: u != t || !committed ==> ClaimOf(db, u) == ClaimOf(old(db), u)
      ensures db.runs == old(db).runs && (!committed ==> db == old(db))
    {
      ExternalKeeps(db, t, kind, owner);
      hide Good, Outbox;
      committed := Commit(if give then Release(db, t, kind, owner) else Acquire(db, t, kind, owner));
    }

    /** Row progress gives a run its first cursor. */
    method RecordCursor(id: string)
      requires Valid() && id in db.runs
      modifies this`db
      ensures Valid() && db.intents == old(db).intents && db.queue == old(db).queue
      ensures db == old(db).(runs := old(db).runs[id := old(db).runs[id].(hasCursor := true)])
    {
      var d := db.(runs := db.runs[id := db.runs[id].(hasCursor := true)]);
      SameShapeKeeps(db, d);
      db := d;
    }
  }

  lemma MarkKeeps(db: Db, s: string)
    requires Good(db) && s in db.intents
    ensures var d := db.(intents := db.intents[s := db.intents[s].(published := true)]);
      Good(d) && IntentsKept(db.intents, d.intents)
  {
    var d := db.(intents := db.intents[s := db.intents[s].(published := true)]);
    IntentsCover(db, d);
    assert forall t :: ClaimOf(d, t) == ClaimOf(db, t);
  }

  lemma OnwardNow(db: Db, source: Source)
    ensures Onward(db, source, db, source)
  {
  }

  lemma SameRuns(a: Db, b: Db, ids: Table -> string)
    requires b == a.(intents := b.intents)
    ensures NewIds(a, ids) <==> NewIds(b, ids)
  {
  }

  lemma NothingPending(intents: map<string, Intent>, source: Source)
    requires Outbox(intents, source) && Pending(intents) == {}
    ensures source.Keys == intents.Keys
  {
    forall s | s in intents
      ensures s in source
    {
      assert s !in Pending(intents);
    }
  }

  // ---------------------------------------------------------------------------
  // Re-arming
  // ---------------------------------------------------------------------------

  /** The incremental active runs a signal correlates. */
  predicate IsMember(db: Db, id: string, signal: string) {
    id in db.runs && Active(db.runs[id]) && db.runs[id].mode.Incremental? && db.runs[id].signal == Some(signal)
  }

  /** A loading run with a cursor, under an acknowledged signal. */
  predicate Interrupted(db: Db, id: string) {
    id in db.runs && db.runs[id].mode.Incremental? && db.runs[id].state.Loading? && db.runs[id].hasCursor &&
    db.runs[id].signal.Some? && db.runs[id].signal.value in db.intents && db.intents[db.runs[id].signal.value].published
  }

  /** The runs that move: members of a signal with an interrupted run. */
  function Rearmable(db: Db): (ids: set<string>)
    ensures forall id :: id in ids ==> id in db.runs && db.runs[id].signal.Some?
  {
    set id | id in db.runs && db.runs[id].signal.Some? && IsMember(db, id, db.runs[id].signal.value) &&
      exists o :: o in db.runs && Interrupted(db, o) && db.runs[o].signal == db.runs[id].signal
  }

  /** Which runs move: the active incremental ones under a signal whose intent is published and
      which has a loading incremental run with a cursor. */
  lemma RearmableTells(db: Db, id: string)
    ensures id in Rearmable(db) <==>
      id in db.runs && !db.runs[id].state.Complete? && db.runs[id].mode.Incremental? && db.runs[id].signal.Some? &&
      db.runs[id].signal.value in db.intents && db.intents[db.runs[id].signal.value].published &&
      exists o :: o in db.runs && db.runs[o].signal == db.runs[id].signal && Stopped(db.runs[o])
  {
    if id in Rearmable(db) {
      var o :| o in db.runs && Interrupted(db, o) && db.runs[o].signal == db.runs[id].signal;
      assert Stopped(db.runs[o]);
    }
    if id in db.runs && db.runs[id].signal.Some? && db.runs[id].signal.value in db.intents && db.intents[db.runs[id].signal.value].published {
      forall o | o in db.runs && db.runs[o].signal == db.runs[id].signal && Stopped(db.runs[o])
        ensures Interrupted(db, o)
      {
      }
    }
  }

  predicate Stopped(run: Run) {
    run.mode.Incremental? && run.state.Loading? && run.hasCursor
  }

  /** The signals whose runs move. */
  function Groups(db: Db): set<string> {
    set id | id in Rearmable(db) :: db.runs[id].signal.value
  }

  function Resignal(db: Db, members: set<string>, signal: string): Db {
    db.(runs := map id | id in db.runs :: if id in members then db.runs[id].(signal := Some(signal)) else db.runs[id])
  }

  lemma ResignalKeeps(db: Db, members: set<string>, signal: string)
    requires Good(db)
    ensures Good(Resignal(db, members, signal)) && SameShape(db, Resignal(db, members, signal))
  {
    SameShapeKeeps(db, Resignal(db, members, signal));
  }

  method TablesOf(db: Db, members: set<string>) returns (tables: seq<Table>)
    requires members <= db.runs.Keys
    ensures forall id :: id in members ==> db.runs[id].table in tables
    ensures forall t :: t in tables ==> exists id :: id in members && db.runs[id].table == t
  {
    tables := [];
    var left := members;
    while left != {}
      invariant left <= members
      invariant forall id :: id in members && id !in left ==> db.runs[id].table in tables
      invariant forall t :: t in tables ==> exists id :: id in members && db.runs[id].table == t
    {
      var id :| id in left;
      tables, left := tables + [db.runs[id].table], left - {id};
    }
  }

  ghost predicate Moved(db: Db, id: string, signal: string) {
    id in db.runs && db.runs[id].signal == Some(signal) && signal in db.intents && db.runs[id].table in db.intents[signal].tables
  }

  /** A rearmable run under its new signal, any other run as it was. */
  ghost function Readdressed(db: Db, id: string, newIds: string -> string): Run
    requires id in db.runs
  {
    if id in Rearmable(db) then db.runs[id].(signal := Some(newIds(db.runs[id].signal.value))) else db.runs[id]
  }

  /** A new intent is for the tables of the runs that move to it, and not yet published. */
  ghost predicate Reopened(db: Db, intent: Intent, s: string, newIds: string -> string) {
    intent.kind == Admission && !intent.published &&
    exists g :: s == newIds(g) && forall t :: t in intent.tables <==> Moving(db, g, t)
  }

  ghost predicate Moving(db: Db, g: string, t: Table) {
    exists id :: id in Rearmable(db) && db.runs[id].signal == Some(g) && db.runs[id].table == t
  }

  ghost predicate NewSignals(intents: map<string, Intent>, newIds: string -> string) {
    (forall g :: newIds(g) !in intents) && forall g, h :: g != h ==> newIds(g) != newIds(h)
  }

  /** Every rearmable run of a signal outside `left` has moved, and nothing else has. */
  ghost predicate Rearmed(db: Db, work: Db, left: set<string>, newIds: string -> string) {
    SameShape(db.(intents := work.intents), work) && IntentsKept(db.intents, work.intents) &&
    (forall id :: id in db.runs ==> RunMoved(db, work, left, newIds, id)) && IntentsMoved(db, work.intents, left, newIds)
  }

  ghost predicate RunMoved(db: Db, work: Db, left: set<string>, newIds: string -> string, id: string)
    requires id in db.runs
  {
    id in work.runs &&
    if id in Rearmable(db) && db.runs[id].signal.value !in left
    then work.runs[id] == Readdressed(db, id, newIds) && Moved(work, id, newIds(db.runs[id].signal.value))
    else work.runs[id] == db.runs[id]
  }

  ghost predicate IntentsMoved(db: Db, intents: map<string, Intent>, left: set<string>, newIds: string -> string) {
    (forall s :: s in intents && s !in db.intents ==> Reopened(db, intents[s], s, newIds)) &&
    forall g :: g in left && NewSignals(db.intents, newIds) ==> newIds(g) !in intents
  }

  lemma RunMovedOn(db: Db, work: Db, left: set<string>, newIds: string -> string, g: string, members: set<string>,
                   tables: seq<Table>, after: Db, id: string)
    requires id in db.runs && RunMoved(db, work, left, newIds, id) && g in left
    requires members == (set id | id in db.runs && IsMember(db, id, g)) && members <= Rearmable(db)
    requires forall id :: id in members ==> db.runs[id].table in tables
    requires after.runs == Resignal(work, members, newIds(g)).runs && IntentsKept(work.intents, after.intents)
    requires newIds(g) in after.intents && after.intents[newIds(g)].tables == tables
    ensures RunMoved(db, after, left - {g}, newIds, id)
  {
    if id in Rearmable(db) && db.runs[id].signal == Some(g) {
      assert id in members;
    } else {
      assert id !in members && after.runs[id] == work.runs[id];
    }
    hide Rearmable, IsMember;
  }

  lemma IntentsMovedOn(db: Db, work: Db, left: set<string>, newIds: string -> string, g: string, tables: seq<Table>, after: Db)
    requires IntentsMoved(db, work.intents, left, newIds) && g in left
    requires Record(work, newIds(g), tables, Admission).Ok? && after.intents == Record(work, newIds(g), tables, Admission).value.intents
    requires Reopened(db, Intent(tables, Admission, false), newIds(g), newIds)
    ensures IntentsMoved(db, after.intents, left - {g}, newIds)
  {
    hide Reopened;
  }

  lemma RearmedOne(db: Db, work: Db, left: set<string>, newIds: string -> string, g: string, members: set<string>,
                   tables: seq<Table>, after: Db)
    requires Rearmed(db, work, left, newIds) && g in left && members == (set id | id in db.runs && IsMember(db, id, g))
    requires members <= Rearmable(db)
    requires forall t :: t in tables <==> exists id :: id in members && db.runs[id].table == t
    requires Record(Resignal(work, members, newIds(g)), newIds(g), tables, Admission) == Ok(after)
    ensures Rearmed(db, after, left - {g}, newIds)
  {
    hide Reopened, RunMoved, IntentsMoved, Rearmable, IsMember, SameShape;
    ShapeMovedOn(db, work, members, newIds(g), tables, after);
    hide IntentsKept;
    ReopenedOne(db, members, tables, g, newIds);
    IntentsMovedOn(db, work, left, newIds, g, tables, after);
    MembersTables(db, members, tables);
    forall id | id in db.runs
      ensures RunMoved(db, after, left - {g}, newIds, id)
    {
      RunMovedOn(db, work, left, newIds, g, members, tables, after, id);
    }
  }

  lemma ShapeMovedOn(db: Db, work: Db, members: set<string>, signal: string, tables: seq<Table>, after: Db)
    requires SameShape(db.(intents := work.intents), work) && IntentsKept(db.intents, work.intents)
    requires Record(Resignal(work, members, signal), signal, tables, Admission) == Ok(after)
    ensures SameShape(db.(intents := after.intents), after) && IntentsKept(db.intents, after.intents)
    ensures IntentsKept(work.intents, after.intents) && after.runs == Resignal(work, members, signal).runs
    ensures signal in after.intents && after.intents[signal].tables == tables
    ensures Record(work, signal, tables, Admission).Ok? && after.intents == Record(work, signal, tables, Admission).value.intents
  {
  }

  lemma MembersTables(db: Db, members: set<string>, tables: seq<Table>)
    requires members <= db.runs.Keys && forall t :: t in tables <==> exists id :: id in members && db.runs[id].table == t
    ensures forall id :: id in members ==> db.runs[id].table in tables
  {
  }

  lemma ReopenedOne(db: Db, members: set<string>, tables: seq<Table>, g: string, newIds: string -> string)
    requires members == (set id | id in db.runs && IsMember(db, id, g)) && members <= Rearmable(db)
    requires forall t :: t in tables <==> exists id :: id in members && db.runs[id].table == t
    ensures Reopened(db, Intent(tables, Admission, false), newIds(g), newIds)
  {
    forall t
      ensures t in tables <==> Moving(db, g, t)
    {
      if Moving(db, g, t) {
        var id :| id in Rearmable(db) && db.runs[id].signal == Some(g) && db.runs[id].table == t;
        assert id in members;
      }
    }
  }

  /** All members of a signal with an interrupted run move. */
  lemma MembersMove(db: Db, g: string, members: set<string>)
    requires members == (set id | id in db.runs && IsMember(db, id, g)) && g in Groups(db)
    ensures members <= Rearmable(db) && members != {}
  {
    var o :| o in Rearmable(db) && db.runs[o].signal.value == g;
    assert o in members;
  }

  lemma RearmedAll(db: Db, work: Db, newIds: string -> string)
    requires Rearmed(db, work, {}, newIds)
    ensures work.queue == db.queue && work.claims == db.claims && work.runs.Keys == db.runs.Keys
    ensures QueueKept(db.queue, work.queue) && IntentsKept(db.intents, work.intents)
    ensures forall id :: id in Rearmable(db) ==> Moved(work, id, newIds(db.runs[id].signal.value))
    ensures forall id :: id in db.runs ==> work.runs[id] == Readdressed(db, id, newIds)
    ensures forall s :: s in work.intents && s !in db.intents ==> Reopened(db, work.intents[s], s, newIds)
  {
  }

  /** One transaction over every group. */
  method RearmAll(db: Db, newIds: string -> string, ghost source: Source) returns (r: Attempt<Db>)
    requires Good(db) && Outbox(db.intents, source)
    ensures r.Ok? ==> Good(r.value) && Outbox(r.value.intents, source) && Rearmed(db, r.value, {}, newIds)
    ensures NewSignals(db.intents, newIds) ==> r.Ok?
  {
    hide Rearmed, Good, Outbox, NewSignals, Groups;
    var work, groups := db, Groups(db);
    RearmedNone(db, groups, newIds);
    while groups != {}
      invariant groups <= Groups(db)
      invariant Good(work) && Outbox(work.intents, source) && Rearmed(db, work, groups, newIds)
    {
      var g :| g in groups;
      var moved := RearmGroup(db, work, groups, g, newIds, source);
      if moved.Err? { return moved; }
      work, groups := moved.value, groups - {g};
    }
    return Ok(work);
  }

  /** The members of one signal move to a new one with its own intent. */
  method RearmGroup(db: Db, work: Db, ghost left: set<string>, g: string, newIds: string -> string, ghost source: Source)
    returns (r: Attempt<Db>)
    requires Good(work) && Outbox(work.intents, source) && Rearmed(db, work, left, newIds)
    requires g in left && g in Groups(db)
    ensures r.Ok? ==> Good(r.value) && Outbox(r.value.intents, source) && Rearmed(db, r.value, left - {g}, newIds)
    ensures NewSignals(db.intents, newIds) ==> r.Ok?
  {
    hide Rearmed, Rearmable, Good, Outbox, NewSignals;
    var members := set id | id in db.runs && IsMember(db, id, g);
    MembersMove(db, g, members);
    hide IsMember;
    var tables := TablesOf(db, members);
    var moved := Resignal(work, members, newIds(g));
    ResignalKeeps(work, members, newIds(g));
    var recorded := Record(moved, newIds(g), tables, Admission);
    if recorded.Err? {
      StillNew(db, work, left, newIds, g);
      assert tables != [] by { SomeTable(db, members, tables); }
      return Err(recorded.error);
    }
    RecordKeeps(moved, newIds(g), tables, Admission, source);
    RearmedOne(db, work, left, newIds, g, members, tables, recorded.value);
    return recorded;
  }

  lemma SomeTable(db: Db, members: set<string>, tables: seq<Table>)
    requires members <= db.runs.Keys && members != {} && forall id :: id in members ==> db.runs[id].table in tables
    ensures tables != []
  {
    var id :| id in members;
    assert db.runs[id].table in tables;
  }

  lemma StillNew(db: Db, work: Db, left: set<string>, newIds: string -> string, g: string)
    requires Rearmed(db, work, left, newIds) && g in left
    ensures NewSignals(db.intents, newIds) ==> newIds(g) !in work.intents
  {
  }

  lemma RearmedNone(db: Db, groups: set<string>, newIds: string -> string)
    requires groups == Groups(db)
    ensures Rearmed(db, db, groups, newIds)
  {
  }

  // ---------------------------------------------------------------------------
  // Every interleaving
  // ---------------------------------------------------------------------------

  /** One call of an owner, a scheduler, the stream or another shadow owner, with what the
      world picks for it (new ids, and where the process dies). */
  datatype Call =
    | Admit(tables: seq<Table>, signalId: Option<string>, requestId: string, newId: string, ids: Table -> string)
    | Ask(table: Table, mode: Mode, ids: Table -> string)
    | Settle(dispatch: bool, crash: Crash, signals: nat -> string, rounds: nat -> Table -> string)
    | ReArm(newIds: string -> string)
    | Ready(run: string)
    | Notify(note: Note)
    | SwapIn(table: Table)
    | FullSwapIn(table: Table)
    | Elsewhere(table: Table, kind: Owner, owner: string, give: bool)
    | Cursor(run: string)

  /** The states of a run of the coordinator, before the first call and after each, and the
      answers to the requests. */
  datatype Moment = Moment(db: Db, source: Source)

  ghost predicate Sane(m: Moment) {
    Good(m.db) && Outbox(m.db.intents, m.source)
  }

  ghost predicate Later(m: Moment, n: Moment) {
    Onward(m.db, m.source, n.db, n.source)
  }

  /** What one call answered, and what a request that was queued left behind. */
  ghost predicate Answers(before: Moment, call: Call, answer: Attempt<Admission>, after: Moment) {
    call.Admit? ==>
      answer == Decide(before.db, call.tables, call.signalId, call.newId, call.ids) &&
      (answer == Ok(Queued) ==> Joins(before.db.queue, after.db.queue, call.requestId, Dedupe(call.tables)))
  }

  /** The first `n` calls. */
  ghost predicate Told(moments: seq<Moment>, calls: seq<Call>, answers: seq<Attempt<Admission>>, n: nat) {
    n <= |calls| && |moments| == n + 1 && |answers| == n && (forall m :: m in moments ==> Sane(m)) &&
    forall i, j :: 0 <= i && j == i + 1 && j < |moments| ==>
      Later(moments[i], moments[j]) && Answers(moments[i], calls[i], answers[i], moments[j])
  }

  /** Any sequence of calls and crashes. At every moment the database is good and the outbox
      agrees with the source; between any two moments no intent, request or source row is lost
      or rewritten; and a request that was answered `Queued` is, at every later moment, still
      waiting for its tables or dispatched by a signal that names them, exactly unless its id
      had been spent on a request dispatched without them. */
  method Operate(calls: seq<Call>) returns (moments: seq<Moment>, answers: seq<Attempt<Admission>>)
    requires forall c :: c in calls && c.Elsewhere? ==> !c.kind.Backfill?
    ensures Told(moments, calls, answers, |calls|)
    ensures forall i, j :: 0 <= i <= j < |moments| ==> Later(moments[i], moments[j])
    ensures forall i, j :: 0 <= i < |calls| && i < j < |moments| && calls[i].Admit? && answers[i] == Ok(Queued) ==>
      (Promised(moments[j].db, calls[i].requestId, calls[i].tables) <==>
        !Spent(moments[i].db.queue, calls[i].requestId, calls[i].tables))
  {
    var c := new Coordinator();
    moments, answers := [Moment(c.db, c.source)], [];
    assert Told(moments, calls, answers, 0);
    hide Told, Sane, Later, Answers, Good, Outbox, Onward;
    for i := 0 to |calls|
      invariant fresh(c) && c.Valid() && Told(moments, calls, answers, i)
      invariant moments != [] && moments[|moments| - 1] == Moment(c.db, c.source)
    {
      assert calls[i] in calls;
      var answer := Perform(c, calls[i]);
      ToldMore(moments, calls, answers, i, answer, Moment(c.db, c.source));
      moments, answers := moments + [Moment(c.db, c.source)], answers + [answer];
    }
    Throughout(moments, calls, answers);
  }

  lemma ToldMore(moments: seq<Moment>, calls: seq<Call>, answers: seq<Attempt<Admission>>, n: nat, answer: Attempt<Admission>, m: Moment)
    requires Told(moments, calls, answers, n) && n < |calls| && Sane(m)
    requires moments != [] && Later(moments[|moments| - 1], m) && Answers(moments[|moments| - 1], calls[n], answer, m)
    ensures Told(moments + [m], calls, answers + [answer], n + 1)
  {
    hide Sane, Later, Answers;
  }

  lemma Throughout(moments: seq<Moment>, calls: seq<Call>, answers: seq<Attempt<Admission>>)
    requires Told(moments, calls, answers, |calls|)
    ensures |moments| == |calls| + 1 && |answers| == |calls|
    ensures forall i, j :: 0 <= i <= j < |moments| ==> Later(moments[i], moments[j])
    ensures forall i, j :: 0 <= i < |calls| && i < j < |moments| && calls[i].Admit? && answers[i] == Ok(Queued) ==>
      (Promised(moments[j].db, calls[i].requestId, calls[i].tables) <==>
        !Spent(moments[i].db.queue, calls[i].requestId, calls[i].tables))
  {
    hide Sane, Later, Answers, Promised, Spent, Decide;
    forall i, j | 0 <= i <= j < |moments|
      ensures Later(moments[i], moments[j])
    {
      Spanning(moments, calls, answers, i, j);
    }
    forall i, j | 0 <= i < |calls| && i < j < |moments| && calls[i].Admit? && answers[i] == Ok(Queued)
      ensures Promised(moments[j].db, calls[i].requestId, calls[i].tables) <==>
        !Spent(moments[i].db.queue, calls[i].requestId, calls[i].tables)
    {
      var k := i + 1;
      assert Answers(moments[i], calls[i], answers[i], moments[k]) && Later(moments[k], moments[j]) && moments[j] in moments;
      Served(moments[i], moments[k], moments[j], calls[i], answers[i]);
    }
  }

  lemma {:induction false} Spanning(moments: seq<Moment>, calls: seq<Call>, answers: seq<Attempt<Admission>>, i: nat, j: nat)
    requires Told(moments, calls, answers, |calls|) && i <= j < |moments|
    ensures Later(moments[i], moments[j])
    decreases j - i
  {
    hide Sane, Answers;
    if i == j {
      OnwardNow(moments[i].db, moments[i].source);
    } else {
      var k := j - 1;
      Spanning(moments, calls, answers, i, k);
      assert Later(moments[k], moments[j]);
      OnwardTwice(moments[i].db, moments[i].source, moments[k].db, moments[k].source, moments[j].db, moments[j].source);
    }
  }

  lemma Served(a: Moment, b: Moment, c: Moment, call: Call, answer: Attempt<Admission>)
    requires Answers(a, call, answer, b) && call.Admit? && answer == Ok(Queued) && Later(b, c) && Sane(c)
    ensures Promised(c.db, call.requestId, call.tables) <==> !Spent(a.db.queue, call.requestId, call.tables)
  {
    hide Good, Outbox, Decide, Joins;
    var once := Dedupe(call.tables);
    PromiseKept(a.db, b.db, c.db, call.requestId, once);
  }

  method Perform(c: Coordinator, call: Call) returns (answer: Attempt<Admission>)
    requires c.Valid() && (call.Elsewhere? ==> !call.kind.Backfill?)
    modifies c
    ensures c.Valid() && Onward(old(c.db), old(c.source), c.db, c.source)
    ensures Answers(old(Moment(c.db, c.source)), call, answer, Moment(c.db, c.source))
  {
    hide Good, Outbox, Joins, Decide, Sends, Admits, Correlated;
    OnwardNow(c.db, c.source);
    answer := Ok(Nothing);
    match call {
      case Admit(tables, signalId, requestId, newId, ids) =>
        answer := c.RequestTables(tables, signalId, requestId, newId, ids);
      case Ask(t, mode, ids) => var _ := c.RequestRun(t, mode, ids);
      case Settle(dispatch, crash, signals, rounds) => var _ := c.Reconcile(dispatch, crash, signals, rounds);
      case ReArm(newIds) => var _ := c.Rearm(newIds);
      case Ready(run) => if run in c.db.runs { var _ := c.Prepare(run); }
      case Notify(note) => var _ := c.ObserveNotification(note);
      case SwapIn(t) => c.CompleteSwap(t);
      case FullSwapIn(t) => var _ := c.CompleteFullSwap(t);
      case Elsewhere(t, kind, owner, give) => var _ := c.ClaimExternally(t, kind, owner, give);
      case Cursor(run) => if run in c.db.runs { c.RecordCursor(run); }
    }
  }
}
