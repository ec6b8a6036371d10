/** The durable tables of src/cdc_flight/backfill.py and the steps its transactions are
    made of.  A transaction computes a new database value or fails; what a failed one
    computed is dropped. */
module BackfillModel {
  import opened Options

  type Table = string

  datatype Error =
    | NoSuchRun
    | UndeclaredEdge
    | ClaimConflict
    | RunIdTaken
    | EmptySignal
    | IntentChanged
    | OtherSignal
    | SeveralSignals
    | TerminalRun

  type Attempt<+T> = Result<T, Error>

  datatype Phase = Requested | Preparing | Loading | ReadyToSwap | Swapping | Complete | RetryWait | Blocked

  datatype Mode = Cdc | Incremental | Full

  datatype Run = Run(table: Table, mode: Mode, state: Phase, signal: Option<string>, hasCursor: bool)

  datatype IntentKind = Admission | QueuedDispatch

  datatype Intent = Intent(tables: seq<Table>, kind: IntentKind, published: bool)

  /** A successor request: still queued while it names no dispatching signal. */
  datatype Request = Request(tables: seq<Table>, dispatched: Option<string>)

  datatype Owner = Backfill | TypedChange | SchemaRebuild

  datatype Claim = Free | Held(kind: Owner, owner: string)

  datatype Db = Db(
    runs: map<string, Run>,
    intents: map<string, Intent>,
    queue: map<string, Request>,
    claims: map<Table, Claim>)

  const EMPTY := Db(map[], map[], map[], map[])

  predicate Active(run: Run) {
    !run.state.Complete?
  }

  /** The states in which a run works on its table's shadow. */
  predicate Owning(state: Phase) {
    state.Loading? || state.ReadyToSwap? || state.Swapping?
  }

  /** The declared edges of a run. */
  predicate Edge(a: Phase, b: Phase) {
    match a
    case Requested => b.Preparing?
    case Preparing => b.Loading? || b.RetryWait? || b.Blocked?
    case Loading => b.Loading? || b.ReadyToSwap? || b.RetryWait? || b.Blocked?
    case ReadyToSwap => b.Swapping? || b.RetryWait?
    case Swapping => b.Complete? || b.RetryWait?
    case RetryWait => b.Preparing? || b.Loading?
    case Blocked => b.Preparing? || b.RetryWait?
    case Complete => b.Requested?
  }

  function ClaimOf(db: Db, t: Table): Claim {
    if t in db.claims then db.claims[t] else Free
  }

  // ---------------------------------------------------------------------------
  // What every transaction boundary keeps
  // ---------------------------------------------------------------------------

  ghost predicate RunsUnique(db: Db) {
    forall a, b :: a in db.runs && b in db.runs && Active(db.runs[a]) && Active(db.runs[b])
      ==> db.runs[a].table != db.runs[b].table || a == b
  }

  ghost predicate Rests(db: Db) {
    forall id :: id in db.runs ==> !db.runs[id].state.Preparing? && !db.runs[id].state.RetryWait?
  }

  /** A run works on a shadow exactly when it holds the claim of that table. */
  ghost predicate ClaimsAgree(db: Db) {
    (forall id :: id in db.runs && Owning(db.runs[id].state) ==> ClaimOf(db, db.runs[id].table) == Held(Backfill, id)) &&
    (forall t :: t in db.claims && db.claims[t].Held? && db.claims[t].kind.Backfill? ==>
      db.claims[t].owner in db.runs && db.runs[db.claims[t].owner].table == t && Owning(db.runs[db.claims[t].owner].state))
  }

  ghost predicate Includes(tables: seq<Table>, wanted: seq<Table>) {
    forall t :: t in wanted ==> t in tables
  }

  /** A dispatched request is covered by the signal that dispatched it. */
  ghost predicate Covered(request: Request, intents: map<string, Intent>) {
    request.dispatched.Some? ==>
      request.dispatched.value in intents && Includes(intents[request.dispatched.value].tables, request.tables)
  }

  ghost predicate QueueCovered(db: Db) {
    forall q :: q in db.queue ==> Covered(db.queue[q], db.intents)
  }

  ghost predicate Good(db: Db) {
    RunsUnique(db) && Rests(db) && ClaimsAgree(db) && QueueCovered(db)
  }

  /** Intents are only added, and only their acknowledgement changes. */
  ghost predicate IntentsKept(a: map<string, Intent>, b: map<string, Intent>) {
    forall s :: s in a ==>
      s in b && b[s].tables == a[s].tables && b[s].kind == a[s].kind && (a[s].published ==> b[s].published)
  }

  /** Requests are only added; a queued one may gain tables, a dispatched one is settled. */
  ghost predicate QueueKept(a: map<string, Request>, b: map<string, Request>) {
    forall q :: q in a ==>
      q in b && Includes(b[q].tables, a[q].tables) && (a[q].dispatched.Some? ==> b[q] == a[q])
  }

  // ---------------------------------------------------------------------------
  // Repository steps
  // ---------------------------------------------------------------------------

  function Transition(db: Db, id: string, target: Phase): (r: Attempt<Db>)
    ensures r.Ok? ==> r.value.runs.Keys == db.runs.Keys
  {
    if id !in db.runs then Err(NoSuchRun)
    else if !Edge(db.runs[id].state, target) then Err(UndeclaredEdge)
    else Ok(db.(runs := db.runs[id := db.runs[id].(state := target)]))
  }

  function Acquire(db: Db, t: Table, kind: Owner, owner: string): Attempt<Db> {
    if ClaimOf(db, t).Free? then Ok(db.(claims := db.claims[t := Held(kind, owner)]))
    else if ClaimOf(db, t) == Held(kind, owner) then Ok(db)
    else Err(ClaimConflict)
  }

  function Release(db: Db, t: Table, kind: Owner, owner: string): Attempt<Db> {
    if ClaimOf(db, t).Free? then Ok(db)
    else if ClaimOf(db, t) != Held(kind, owner) then Err(ClaimConflict)
    else Ok(db.(claims := db.claims[t := Free]))
  }

  /** Put a run to work: claim its shadow on the way into loading. */
  function Enter(db: Db, id: string): (r: Attempt<Db>)
    requires id in db.runs
    ensures r.Ok? ==> r.value.runs.Keys == db.runs.Keys
  {
    var d1 :- Transition(db, id, Preparing);
    var d2 :- Acquire(d1, db.runs[id].table, Backfill, id);
    Transition(d2, id, Loading)
  }

  /** `ensure_loading`. The second branch does not acquire: no run rests in preparing. */
  function EnsureLoading(db: Db, id: string): (r: Attempt<Db>)
    requires id in db.runs
    ensures r.Ok? ==> r.value.runs.Keys == db.runs.Keys
  {
    match db.runs[id].state
    case Requested => Enter(db, id)
    case Preparing => Transition(db, id, Loading)
    case RetryWait => Enter(db, id)
    case Blocked => Enter(db, id)
    case _ => Ok(db)
  }

  function SetSignal(db: Db, id: string, signal: Option<string>): Db
    requires id in db.runs
  {
    if signal.Some? then db.(runs := db.runs[id := db.runs[id].(signal := signal)]) else db
  }

  /** Only run `id` and the claim of its table differ. */
  ghost predicate Touches(a: Db, b: Db, id: string) {
    id in a.runs && id in b.runs && b.runs == a.runs[id := b.runs[id]] && b.runs[id].table == a.runs[id].table &&
    (forall t :: t != a.runs[id].table ==> ClaimOf(b, t) == ClaimOf(a, t)) &&
    (forall t :: t in b.claims && t != a.runs[id].table ==> t in a.claims) &&
    b.intents == a.intents && b.queue == a.queue
  }

  /** What is left to check when one active run and its claim change. */
  lemma LocalKeeps(a: Db, b: Db, id: string)
    requires Good(a) && Touches(a, b, id) && Active(a.runs[id])
    requires !b.runs[id].state.Preparing? && !b.runs[id].state.RetryWait?
    requires var c := ClaimOf(b, a.runs[id].table);
      if Owning(b.runs[id].state) then c == Held(Backfill, id)
      else c == Free || (c == ClaimOf(a, a.runs[id].table) && !Owning(a.runs[id].state))
    ensures Good(b)
  {
    var t := a.runs[id].table;
    forall o | o in b.runs && Owning(b.runs[o].state)
      ensures ClaimOf(b, b.runs[o].table) == Held(Backfill, o)
    {
      if o != id { assert b.runs[o] == a.runs[o]; }
    }
    forall u | u in b.claims && b.claims[u].Held? && b.claims[u].kind.Backfill?
      ensures b.claims[u].owner in b.runs && b.runs[b.claims[u].owner].table == u
           && Owning(b.runs[b.claims[u].owner].state)
    {
      assert ClaimOf(b, u) == b.claims[u];
      if u != t {
        assert ClaimOf(a, u) == a.claims[u];
      }
    }
    forall x, y | x in b.runs && y in b.runs && Active(b.runs[x]) && Active(b.runs[y]) && b.runs[x].table == b.runs[y].table
      ensures x == y
    {
      assert Active(a.runs[x]) && Active(a.runs[y]);
    }
  }

  lemma EnterIs(db: Db, id: string)
    requires id in db.runs && Enter(db, id).Ok?
    ensures var d := Enter(db, id).value;
      var t := db.runs[id].table;
      d.runs == db.runs[id := db.runs[id].(state := Loading)] && ClaimOf(d, t) == Held(Backfill, id) &&
      (d.claims == db.claims || d.claims == db.claims[t := Held(Backfill, id)]) &&
      d.intents == db.intents && d.queue == db.queue
  {
  }

  /** A run put to work owns its shadow. */
  lemma EnsureLoadingKeeps(db: Db, id: string)
    requires Good(db) && id in db.runs && Active(db.runs[id]) && EnsureLoading(db, id).Ok?
    ensures var d := EnsureLoading(db, id).value;
      Good(d) && Touches(db, d, id) && Owning(d.runs[id].state) && d.runs[id].mode == db.runs[id].mode &&
      (Owning(db.runs[id].state) ==> d == db) && (!Owning(db.runs[id].state) ==> d.runs[id].state.Loading?)
  {
    assert !db.runs[id].state.Preparing? && !db.runs[id].state.RetryWait?;
    if !Owning(db.runs[id].state) {
      EnterIs(db, id);
      hide Good, Enter;
      LocalKeeps(db, EnsureLoading(db, id).value, id);
    }
  }

  // ---------------------------------------------------------------------------
  // Notifications and swaps
  // ---------------------------------------------------------------------------

  datatype Observation = Started | InProgress | ScanSucceeded | ScanFailed(fallback: Mode) | AllCompleted | Other

  datatype Note = Note(table: Option<Table>, observation: Observation, signal: Option<string>)

  predicate PastLoading(state: Phase) {
    state.ReadyToSwap? || state.Swapping? || state.Complete?
  }

  /** `observe_notification` on the active run of its table. */
  function Observe(db: Db, id: string, n: Note): Attempt<Db>
    requires id in db.runs
  {
    match n.observation
    case Started => if PastLoading(db.runs[id].state) then Ok(db) else Progress(db, id, n)
    case InProgress => if PastLoading(db.runs[id].state) then Ok(db) else Progress(db, id, n)
    case AllCompleted => if PastLoading(db.runs[id].state) then Ok(db) else Progress(db, id, n)
    case ScanSucceeded =>
      var d :- EnsureLoading(db, id);
      if d.runs[id].state.Loading? then Transition(SetSignal(d, id, n.signal), id, ReadyToSwap) else Ok(d)
    case ScanFailed(fallback) =>
      var d :- EnsureLoading(db, id);
      if d.runs[id].state.Loading? then Contain(SetSignal(d, id, n.signal), id, fallback) else Ok(d)
    case Other => Ok(db)
  }

  /** Progress: the run is loading, and carries the signal the notification names. */
  function Progress(db: Db, id: string, n: Note): Attempt<Db>
    requires id in db.runs
  {
    var d :- EnsureLoading(db, id);
    Ok(SetSignal(d, id, n.signal))
  }

  /** A failed scan blocks its run and gives the shadow back. */
  function Contain(db: Db, id: string, fallback: Mode): Attempt<Db>
    requires id in db.runs
  {
    var d :- Transition(db, id, Blocked);
    Release(d.(runs := d.runs[id := d.runs[id].(mode := fallback)]), db.runs[id].table, Backfill, id)
  }

  /** Publish a loaded shadow and give the claim back. */
  function Swap(db: Db, id: string): Attempt<Db>
    requires id in db.runs
  {
    var d1 :- if db.runs[id].state.Loading? then Transition(db, id, ReadyToSwap) else Ok(db);
    var d2 :- if d1.runs[id].state.ReadyToSwap? then Transition(d1, id, Swapping) else Ok(d1);
    if d2.runs[id].state.Swapping? then
      var d3 :- Transition(d2, id, Complete);
      Release(d3, db.runs[id].table, Backfill, id)
    else Ok(d2)
  }

  /** Close a scheduled full run inside the commit of its resnapshot. */
  function FullSwap(db: Db, id: string): Attempt<Db>
    requires id in db.runs
  {
    if !db.runs[id].mode.Full? then Ok(db) else
    var d :- PrepareRun(db, id);
    Swap(d, id)
  }

  function PrepareRun(db: Db, id: string): (r: Attempt<Db>)
    requires id in db.runs
    ensures r.Ok? ==> r.value.runs.Keys == db.runs.Keys
  {
    match db.runs[id].state
    case Requested => Enter(db, id)
    case Preparing =>
      var d :- Acquire(db, db.runs[id].table, Backfill, id);
      Transition(d, id, Loading)
    case _ => Ok(db)
  }

  lemma SetSignalKeeps(db: Db, id: string, signal: Option<string>)
    requires Good(db) && id in db.runs
    ensures Good(SetSignal(db, id, signal))
    ensures var d := SetSignal(db, id, signal);
      id in d.runs && d.runs[id].(signal := db.runs[id].signal) == db.runs[id] && d.runs.Keys == db.runs.Keys &&
      d.intents == db.intents && d.queue == db.queue && d.claims == db.claims
  {
    var d := SetSignal(db, id, signal);
    assert forall o :: o in d.runs ==> d.runs[o].table == db.runs[o].table && d.runs[o].state == db.runs[o].state;
    assert forall t :: ClaimOf(d, t) == ClaimOf(db, t);
  }

  lemma ObserveKeeps(db: Db, id: string, n: Note)
    requires Good(db) && id in db.runs && Active(db.runs[id])
    ensures Observe(db, id, n).Ok? ==>
      Good(Observe(db, id, n).value) && Observe(db, id, n).value.intents == db.intents && Observe(db, id, n).value.queue == db.queue
  {
    hide Good, EnsureLoading, Contain, SetSignal, Transition;
    if EnsureLoading(db, id).Ok? && !n.observation.Other? {
      EnsureLoadingKeeps(db, id);
      var d := EnsureLoading(db, id).value;
      SetSignalKeeps(d, id, n.signal);
      var e := SetSignal(d, id, n.signal);
      if d.runs[id].state.Loading? {
        if n.observation.ScanSucceeded? {
          ReadyKeeps(e, id);
        } else if n.observation.ScanFailed? {
          ContainKeeps(e, id, n.observation.fallback);
        }
      }
    }
  }

  /** What a notification does to the active run of its table: it fails exactly when the
      run still needs a shadow another owner holds, and otherwise leaves the run where the
      observation says. */
  lemma ObserveOutcome(db: Db, id: string, n: Note)
    requires Good(db) && id in db.runs && Active(db.runs[id]) && !n.observation.Other?
    ensures Observe(db, id, n).Err? <==> !Owning(db.runs[id].state) && ClaimOf(db, db.runs[id].table).Held?
    ensures Observe(db, id, n).Ok? && id in Observe(db, id, n).value.runs ==>
      var d := Observe(db, id, n).value;
      var state := d.runs[id].state;
      if PastLoading(db.runs[id].state) then d == db
      else if n.observation.ScanSucceeded? then state.ReadyToSwap? && ClaimOf(d, db.runs[id].table) == Held(Backfill, id)
      else if n.observation.ScanFailed? then state.Blocked? && ClaimOf(d, db.runs[id].table).Free?
      else state.Loading? && ClaimOf(d, db.runs[id].table) == Held(Backfill, id)
  {
    hide Good, EnsureLoading, Contain, SetSignal, Transition, ClaimOf;
    EnsureLoadingOutcome(db, id);
    if EnsureLoading(db, id).Ok? {
      EnsureLoadingKeeps(db, id);
      var d := EnsureLoading(db, id).value;
      SetSignalKeeps(d, id, n.signal);
      var e := SetSignal(d, id, n.signal);
      OwnsClaim(e, id);
      if e.runs[id].state.Loading? {
        ReadyKeeps(e, id);
        if n.observation.ScanFailed? { ContainKeeps(e, id, n.observation.fallback); }
      }
    }
  }

  lemma OwnsClaim(db: Db, id: string)
    requires Good(db) && id in db.runs && Owning(db.runs[id].state)
    ensures ClaimOf(db, db.runs[id].table) == Held(Backfill, id)
  {
  }

  lemma EnsureLoadingOutcome(db: Db, id: string)
    requires Good(db) && id in db.runs && Active(db.runs[id])
    ensures EnsureLoading(db, id).Err? <==> !Owning(db.runs[id].state) && ClaimOf(db, db.runs[id].table).Held?
  {
    var t := db.runs[id].table;
    if !Owning(db.runs[id].state) && ClaimOf(db, t).Held? {
      assert ClaimOf(db, t) != Held(Backfill, id);
    }
  }

  lemma ReadyKeeps(db: Db, id: string)
    requires Good(db) && id in db.runs && db.runs[id].state.Loading?
    ensures var r := Transition(db, id, ReadyToSwap);
      r.Ok? && Good(r.value) && Touches(db, r.value, id) && r.value.runs[id].state.ReadyToSwap? &&
      ClaimOf(r.value, db.runs[id].table) == Held(Backfill, id)
  {
    var d := Transition(db, id, ReadyToSwap).value;
    assert ClaimOf(d, db.runs[id].table) == ClaimOf(db, db.runs[id].table);
    hide Good;
    LocalKeeps(db, d, id);
  }

  lemma ContainKeeps(db: Db, id: string, fallback: Mode)
    requires Good(db) && id in db.runs && db.runs[id].state.Loading?
    ensures var r := Contain(db, id, fallback);
      r.Ok? && Good(r.value) && Touches(db, r.value, id) && r.value.runs[id].state.Blocked? &&
      ClaimOf(r.value, db.runs[id].table).Free?
  {
    OwnsClaim(db, id);
    ContainIs(db, id, fallback);
    hide Good, Contain;
    LocalKeeps(db, Contain(db, id, fallback).value, id);
  }

  lemma ContainIs(db: Db, id: string, fallback: Mode)
    requires id in db.runs && db.runs[id].state.Loading? && ClaimOf(db, db.runs[id].table) == Held(Backfill, id)
    ensures Contain(db, id, fallback) == Ok(db.(runs := db.runs[id := db.runs[id].(state := Blocked, mode := fallback)],
                                               claims := db.claims[db.runs[id].table := Free]))
  {
    var blocked := db.runs[id := db.runs[id].(state := Blocked)];
    assert blocked[id := blocked[id].(mode := fallback)] == db.runs[id := db.runs[id].(state := Blocked, mode := fallback)];
  }

  /** A swap of an owning run completes it and frees the shadow; of any other it does nothing. */
  lemma SwapKeeps(db: Db, id: string)
    requires Good(db) && id in db.runs && Active(db.runs[id])
    ensures var r := Swap(db, id);
      r.Ok? && Good(r.value) && r.value.intents == db.intents && r.value.queue == db.queue &&
      if Owning(db.runs[id].state)
      then id in r.value.runs && r.value.runs[id].state.Complete? && ClaimOf(r.value, db.runs[id].table).Free?
      else r.value == db
  {
    if Owning(db.runs[id].state) {
      assert ClaimOf(db, db.runs[id].table) == Held(Backfill, id);
      SwapIs(db, id);
      hide Good, Swap;
      LocalKeeps(db, Swap(db, id).value, id);
    }
  }

  lemma SwapIs(db: Db, id: string)
    requires id in db.runs && Owning(db.runs[id].state) && ClaimOf(db, db.runs[id].table) == Held(Backfill, id)
    ensures Swap(db, id) == Ok(db.(runs := db.runs[id := db.runs[id].(state := Complete)],
                                   claims := db.claims[db.runs[id].table := Free]))
  {
    var ready := db.runs[id := db.runs[id].(state := ReadyToSwap)];
    var swapping := db.runs[id := db.runs[id].(state := Swapping)];
    assert ready[id := db.runs[id].(state := Swapping)] == swapping;
    assert swapping[id := db.runs[id].(state := Complete)] == db.runs[id := db.runs[id].(state := Complete)];
  }

  lemma PrepareKeeps(db: Db, id: string)
    requires Good(db) && id in db.runs && PrepareRun(db, id).Ok?
    ensures var d := PrepareRun(db, id).value;
      Good(d) && id in d.runs && (Active(db.runs[id]) ==> Active(d.runs[id])) && d.intents == db.intents && d.queue == db.queue &&
      !d.runs[id].state.Requested?
  {
    assert !db.runs[id].state.Preparing?;
    if db.runs[id].state.Requested? {
      EnterIs(db, id);
      hide Good, Enter;
      LocalKeeps(db, PrepareRun(db, id).value, id);
    }
  }

  lemma FullSwapKeeps(db: Db, id: string)
    requires Good(db) && id in db.runs && Active(db.runs[id]) && FullSwap(db, id).Ok?
    ensures var d := FullSwap(db, id).value; Good(d) && d.intents == db.intents && d.queue == db.queue
  {
    if db.runs[id].mode.Full? {
      PrepareKeeps(db, id);
      SwapKeeps(PrepareRun(db, id).value, id);
    }
  }

  /** Another owner of the shadow takes or gives back a claim. */
  lemma ExternalKeeps(db: Db, t: Table, kind: Owner, owner: string)
    requires Good(db) && !kind.Backfill?
    ensures Acquire(db, t, kind, owner).Ok? ==> Good(Acquire(db, t, kind, owner).value)
    ensures Release(db, t, kind, owner).Ok? ==> Good(Release(db, t, kind, owner).value)
  {
    forall d | d == db.(claims := db.claims[t := Held(kind, owner)]) || d == db.(claims := db.claims[t := Free])
      ensures ClaimOf(db, t).Free? || ClaimOf(db, t) == Held(kind, owner) ==> Good(d)
    {
      assert forall u :: u != t ==> ClaimOf(d, u) == ClaimOf(db, u);
    }
  }
}
