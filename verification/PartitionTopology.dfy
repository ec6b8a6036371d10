/** What partition watching means: which observations are evidence, which edges are stable
    after them, and which attach, detach and drop events they emit, as a function of the
    polls alone.  `PartitionWatcher.Watcher` is proved to compute it. */
module PartitionTopology {
  import opened Options
  import opened Sequences

  /** oid, relfilenode and row-type oid of a relation. */
  datatype Generation = Generation(oid: Option<int>, relfilenode: Option<int>, reltype: Option<int>)

  datatype Edge = Edge(
    parent: string,
    parentGeneration: Generation,
    child: string,
    childGeneration: Generation,
    bound: Option<string>,
    attached: bool,
    epoch: Option<string>,
    sequence: Option<int>)

  /** The complete edge generation. */
  datatype Key = Key(
    parent: string,
    parentGeneration: Generation,
    child: string,
    childGeneration: Generation,
    epoch: Option<string>,
    sequence: Option<int>)

  function KeyOf(e: Edge): Key {
    Key(e.parent, e.parentGeneration, e.child, e.childGeneration, e.epoch, e.sequence)
  }

  predicate Known(g: Generation) {
    g.oid.Some? && g.oid.value > 0 && g.relfilenode.Some? && g.reltype.Some?
  }

  predicate Complete(e: Edge) {
    Known(e.parentGeneration) && Known(e.childGeneration) && e.bound.Some? && e.attached &&
    Present(e.epoch) && e.sequence.Some?
  }

  datatype Observation = Observation(edges: seq<Edge>, complete: bool, lsn: int)

  predicate Usable(o: Observation) {
    o.complete && o.lsn > 0 && forall e :: e in o.edges ==> Complete(e)
  }

  /** The relations a poll saw, by qualified name. */
  type Relations = map<string, Generation>

  datatype Shape = Attached(key: Key) | Detached(key: Key) | Dropped(key: Key)

  /** What one accepted observation showed. */
  datatype View = View(edges: set<Key>, relations: Relations)

  function KeysOf(edges: seq<Edge>): set<Key> {
    set e | e in edges :: KeyOf(e)
  }

  function ViewOf(o: Observation, relations: Relations): View {
    View(KeysOf(o.edges), relations)
  }

  predicate Holds(shape: Shape, view: View) {
    match shape
    case Attached(k) => k in view.edges
    case Detached(k) => k !in view.edges && k.child in view.relations && view.relations[k.child] == k.childGeneration
    case Dropped(k) => k !in view.edges && k.child !in view.relations
  }

  // ---------------------------------------------------------------------------
  // Which observations are evidence
  // ---------------------------------------------------------------------------

  predicate Backed(e: Edge, relations: Relations) {
    e.parent in relations && e.child in relations &&
    relations[e.parent] == e.parentGeneration && relations[e.child] == e.childGeneration
  }

  predicate DistinctKeys(edges: seq<Edge>) {
    forall i, j :: 0 <= i < j < |edges| ==> KeyOf(edges[i]) != KeyOf(edges[j])
  }

  /** A known edge's parent is still there unchanged, and its child was not replaced. */
  predicate Traceable(k: Key, relations: Relations) {
    k.parent in relations && relations[k.parent] == k.parentGeneration &&
    (k.child in relations ==> relations[k.child] == k.childGeneration)
  }

  predicate Acceptable(stable: set<Key>, o: Observation, relations: Relations) {
    Usable(o) && DistinctKeys(o.edges) && (forall e :: e in o.edges ==> Backed(e, relations)) &&
    forall k :: k in stable ==> Traceable(k, relations)
  }

  /** What counts as evidence, written out: the poll was complete at a position, every edge is
      attached with all its parts and told once, both its relations were seen in the generations
      it names, and no known edge lost its parent or had its child replaced. */
  lemma EvidenceTells(stable: set<Key>, o: Observation, relations: Relations)
    ensures Acceptable(stable, o, relations) <==>
      o.complete && o.lsn > 0 && (forall e :: e in o.edges ==> Whole(e) && Seen(e.parent, e.parentGeneration, relations) && Seen(e.child, e.childGeneration, relations)) &&
      (forall i, j :: 0 <= i < j < |o.edges| ==> KeyOf(o.edges[i]) != KeyOf(o.edges[j])) &&
      (forall k :: k in stable ==> Seen(k.parent, k.parentGeneration, relations) && (k.child !in relations || Seen(k.child, k.childGeneration, relations)))
  {
  }

  predicate Seen(name: string, g: Generation, relations: Relations) {
    name in relations && relations[name] == g
  }

  predicate Whole(e: Edge) {
    e.attached && e.bound.Some? && e.sequence.Some? && e.epoch.Some? && e.epoch.value != "" &&
    e.parentGeneration.oid.Some? && e.parentGeneration.oid.value > 0 && e.parentGeneration.relfilenode.Some? && e.parentGeneration.reltype.Some? &&
    e.childGeneration.oid.Some? && e.childGeneration.oid.value > 0 && e.childGeneration.relfilenode.Some? && e.childGeneration.reltype.Some?
  }

  // ---------------------------------------------------------------------------
  // Which differences are emitted, and when
  // ---------------------------------------------------------------------------

  /** The differences between the stable edges and a view, removals told apart by whether
      the child is still there. */
  function ShapeSet(stable: set<Key>, view: View): set<Shape> {
    (set k | k in view.edges && k !in stable :: Attached(k)) +
    (set k | k in stable && k !in view.edges :: if k.child in view.relations then Detached(k) else Dropped(k))
  }

  /** How many of the last observations in a row showed this difference. */
  ghost function Run(tail: seq<View>, stable: set<Key>, s: Shape): nat {
    if tail == [] then 0
    else if s in ShapeSet(stable, tail[|tail| - 1]) then Run(tail[..|tail| - 1], stable, s) + 1
    else 0
  }

  /** The last observation shows differences, and each has been shown by a multiple of
      `polls` observations in a row. */
  ghost predicate Emits(tail: seq<View>, stable: set<Key>, polls: nat)
    requires polls >= 1
  {
    tail != [] && ShapeSet(stable, tail[|tail| - 1]) != {} &&
    forall s :: s in ShapeSet(stable, tail[|tail| - 1]) ==> Run(tail, stable, s) % polls == 0
  }

  /** The stable edges, every observation accepted so far, and how many of these had been
      accepted when the edges became stable. */
  datatype Topology = Topology(initialized: bool, stable: set<Key>, mark: nat, views: seq<View>)

  ghost predicate Sound(t: Topology) {
    t.mark <= |t.views|
  }

  /** One more accepted observation. */
  ghost function See(t: Topology, v: View, polls: nat): (r: Topology)
    requires Sound(t) && polls >= 1
    ensures Sound(r)
  {
    var views := t.views + [v];
    if !t.initialized || Emits(views[t.mark..], t.stable, polls)
    then Topology(true, v.edges, |views|, views)
    else t.(views := views)
  }

  datatype Action = Poll(o: Observation, relations: Relations) | Settled(shapes: set<Shape>) | Forgotten(name: string)

  ghost function Step(t: Topology, a: Action, polls: nat): (r: Topology)
    requires Sound(t) && polls >= 1
    ensures Sound(r)
  {
    if a.Poll? && Acceptable(t.stable, a.o, a.relations) then See(t, ViewOf(a.o, a.relations), polls) else t
  }

  /** What an action emits. */
  ghost function Emission(t: Topology, a: Action, polls: nat): set<Shape>
    requires Sound(t) && polls >= 1
  {
    if a.Poll? && t.initialized && Acceptable(t.stable, a.o, a.relations) &&
       Emits((t.views + [ViewOf(a.o, a.relations)])[t.mark..], t.stable, polls)
    then ShapeSet(t.stable, ViewOf(a.o, a.relations)) else {}
  }

  ghost function Initial(start: Option<set<Key>>): Topology {
    Topology(start.Some?, if start.Some? then start.value else {}, 0, [])
  }

  /** A whole run: `views` are exactly the acceptable polls, in order, each once. */
  ghost function Follow(start: Option<set<Key>>, actions: seq<Action>, polls: nat): (t: Topology)
    requires polls >= 1
    ensures Sound(t)
  {
    if actions == [] then Initial(start)
    else Step(Follow(start, actions[..|actions| - 1], polls), actions[|actions| - 1], polls)
  }

  /** `shape` held in the last `n` of these observations. */
  ghost predicate Streak(shape: Shape, views: seq<View>, n: nat) {
    n <= |views| && forall i :: |views| - n <= i < |views| ==> Holds(shape, views[i])
  }

  // ---------------------------------------------------------------------------
  // Arithmetic of counters that start over
  // ---------------------------------------------------------------------------

  lemma AtLeastOnce(d: int, m: int)
    requires d >= 1 && m >= 1
    ensures d * m >= m
  {
    assert (d - 1) * m >= 0;
  }

  lemma NoMultiple(d: int, m: int)
    requires m >= 1 && -m < d * m < m
    ensures d == 0
  {
    if d != 0 {
      AtLeastOnce(if d > 0 then d else -d, m);
    }
  }

  lemma ModUnique(a: int, q: int, r: int, m: int)
    requires m >= 1 && a == q * m + r && 0 <= r < m
    ensures a % m == r
  {
    assert a == (a / m) * m + a % m;
    assert (a / m - q) * m == r - a % m;
    NoMultiple(a / m - q, m);
  }

  lemma ModSucc(a: nat, m: nat)
    requires m >= 1
    ensures (a + 1) % m == if a % m + 1 < m then a % m + 1 else 0
  {
    var q, r := a / m, a % m;
    assert a == q * m + r;
    if r + 1 < m {
      ModUnique(a + 1, q, r + 1, m);
    } else {
      assert a + 1 == (q + 1) * m + 0;
      ModUnique(a + 1, q + 1, 0, m);
    }
  }

  /** Equal counters stay equal, and unequal ones unequal. */
  lemma {:induction false} ModShift(a: nat, b: nat, n: nat, m: nat)
    requires m >= 1
    ensures a % m == b % m <==> (a + n) % m == (b + n) % m
    decreases n
  {
    if n > 0 {
      ModShift(a, b, n - 1, m);
      ModSucc(a + n - 1, m);
      ModSucc(b + n - 1, m);
    }
  }

  lemma ModReaches(a: nat, m: nat)
    requires m >= 1
    ensures 1 <= m - a % m <= m && (a + (m - a % m)) % m == 0
  {
    var q, r := a / m, a % m;
    assert a == q * m + r;
    assert a + (m - r) == (q + 1) * m + 0;
    ModUnique(a + (m - r), q + 1, 0, m);
  }

  lemma ModPositive(a: nat, m: nat)
    requires m >= 1 && a >= 1 && a % m == 0
    ensures a >= m
  {
    if a < m { ModUnique(a, 0, a, m); }
  }

  // ---------------------------------------------------------------------------
  // Events replay the stable edges
  // ---------------------------------------------------------------------------

  function Apply(edges: set<Key>, shape: Shape): set<Key> {
    if shape.Attached? then edges + {shape.key} else edges - {shape.key}
  }

  function Replay(edges: set<Key>, events: seq<Shape>): set<Key> {
    if events == [] then edges else Apply(Replay(edges, events[..|events| - 1]), events[|events| - 1])
  }

  /** Whether an event changes the set it is applied to. */
  predicate Effective(edges: set<Key>, shape: Shape) {
    if shape.Attached? then shape.key !in edges else shape.key in edges
  }

  /** A batch lists exactly these shapes, at most one for an edge. */
  ghost predicate Lists(batch: seq<Shape>, shapes: set<Shape>) {
    (forall s :: s in batch <==> s in shapes) && forall i, j :: 0 <= i < j < |batch| ==> batch[i].key != batch[j].key
  }

  ghost predicate Replayed(start: Option<set<Key>>, actions: seq<Action>, batches: seq<seq<Shape>>, polls: nat)
    requires polls >= 1
  {
    |batches| == |actions| &&
    forall i :: 0 <= i < |actions| ==> Lists(batches[i], Emission(Follow(start, actions[..i], polls), actions[i], polls))
  }

  lemma {:induction false} ReplayAppend(edges: set<Key>, a: seq<Shape>, b: seq<Shape>)
    ensures Replay(edges, a + b) == Replay(Replay(edges, a), b)
    decreases |b|
  {
    if b == [] {
      assert a + b == a;
    } else {
      assert (a + b)[..|a + b| - 1] == a + b[..|b| - 1];
      ReplayAppend(edges, a, b[..|b| - 1]);
    }
  }

  /** Replaying events with distinct keys sets exactly those keys. */
  lemma {:induction false} ReplayDistinct(edges: set<Key>, batch: seq<Shape>, k: Key)
    requires forall i, j :: 0 <= i < j < |batch| ==> batch[i].key != batch[j].key
    ensures k in Replay(edges, batch) <==>
      Attached(k) in batch || (k in edges && Detached(k) !in batch && Dropped(k) !in batch)
    decreases |batch|
  {
    if batch != [] {
      var rest, last := batch[..|batch| - 1], batch[|batch| - 1];
      ReplayDistinct(edges, rest, k);
      assert batch == rest + [last];
      if last.key == k {
        assert forall s :: s in rest ==> s.key != k;
      }
    }
  }

  /** The differences, in any order, turn the stable edges into the observed ones, and none
      of them is a no-op. */
  lemma DifferencesReplay(stable: set<Key>, v: View, batch: seq<Shape>)
    requires Lists(batch, ShapeSet(stable, v))
    ensures Replay(stable, batch) == v.edges
    ensures forall p :: 0 <= p < |batch| ==> Effective(Replay(stable, batch[..p]), batch[p])
  {
    forall k
      ensures k in Replay(stable, batch) <==> k in v.edges
    {
      ReplayDistinct(stable, batch, k);
    }
    forall p | 0 <= p < |batch|
      ensures Effective(Replay(stable, batch[..p]), batch[p])
    {
      var k := batch[p].key;
      ReplayDistinct(stable, batch[..p], k);
      assert batch[p] in batch;
      assert forall s :: s in batch[..p] ==> s.key != k;
    }
  }

  lemma ReplayNone(edges: set<Key>)
    ensures Replay(edges, []) == edges
  {
  }

  lemma FollowOne(start: Option<set<Key>>, actions: seq<Action>, i: nat, polls: nat)
    requires polls >= 1 && i < |actions|
    ensures Follow(start, actions[..i + 1], polls) == Step(Follow(start, actions[..i], polls), actions[i], polls)
  {
    assert actions[..i + 1][..i] == actions[..i];
  }

  /** Event sourcing: between any two moments of a run that has begun, replaying the events
      emitted in between turns the stable edges of the one into those of the other. */
  lemma {:induction false} EventsReplay(start: Option<set<Key>>, actions: seq<Action>, batches: seq<seq<Shape>>, polls: nat, i: nat, j: nat)
    requires polls >= 1 && Replayed(start, actions, batches, polls) && i <= j <= |actions|
    requires Follow(start, actions[..i], polls).initialized
    ensures Replay(Follow(start, actions[..i], polls).stable, Join(batches[i..j])) == Follow(start, actions[..j], polls).stable
    ensures Follow(start, actions[..j], polls).initialized
    decreases j
  {
    hide Follow, Step, Replay, Emission, Lists;
    if i == j {
      assert batches[i..j] == [];
      ReplayNone(Follow(start, actions[..i], polls).stable);
    } else {
      EventsReplay(start, actions, batches, polls, i, j - 1);
      FollowOne(start, actions, j - 1, polls);
      var t := Follow(start, actions[..j - 1], polls);
      assert batches[i..j][..j - 1 - i] == batches[i..j - 1];
      ReplayAppend(Follow(start, actions[..i], polls).stable, Join(batches[i..j - 1]), batches[j - 1]);
      StepReplays(t, actions[j - 1], batches[j - 1], polls);
    }
  }

  /** One action: what it emits turns the stable edges before it into those after it, each
      event changing something. */
  lemma StepReplays(t: Topology, a: Action, batch: seq<Shape>, polls: nat)
    requires Sound(t) && polls >= 1 && t.initialized && Lists(batch, Emission(t, a, polls))
    ensures Replay(t.stable, batch) == Step(t, a, polls).stable && Step(t, a, polls).initialized
    ensures forall p :: 0 <= p < |batch| ==> Effective(Replay(t.stable, batch[..p]), batch[p])
  {
    hide Emits, ShapeSet, Acceptable, ViewOf;
    if Emission(t, a, polls) == {} {
      NoneListed(batch, {});
      if a.Poll? { EmittedNonempty(t, a, polls); }
    } else {
      DifferencesReplay(t.stable, ViewOf(a.o, a.relations), batch);
    }
  }

  lemma NoneListed(batch: seq<Shape>, shapes: set<Shape>)
    requires Lists(batch, shapes)
    ensures shapes == {} <==> batch == []
  {
    if batch != [] { assert batch[0] in shapes; }
  }

  lemma EmittedNonempty(t: Topology, a: Action, polls: nat)
    requires Sound(t) && polls >= 1 && t.initialized && a.Poll? && Emission(t, a, polls) == {}
    ensures Step(t, a, polls).stable == t.stable
  {
    var views := t.views + [ViewOf(a.o, a.relations)];
    assert views[t.mark..][|views[t.mark..]| - 1] == ViewOf(a.o, a.relations);
  }

  // ---------------------------------------------------------------------------
  // Every event was confirmed
  // ---------------------------------------------------------------------------

  /** The observations since the edges became stable could all trace them. */
  ghost predicate Fair(t: Topology)
    requires Sound(t)
  {
    forall i, k :: t.mark <= i < |t.views| && k in t.stable ==> Traceable(k, t.views[i].relations)
  }

  lemma {:induction false} FollowFair(start: Option<set<Key>>, actions: seq<Action>, polls: nat)
    requires polls >= 1
    ensures Fair(Follow(start, actions, polls))
    decreases |actions|
  {
    hide Emits, Traceable;
    if actions != [] { FollowFair(start, actions[..|actions| - 1], polls); }
  }

  lemma ShapeHolds(stable: set<Key>, v: View, s: Shape)
    requires s in ShapeSet(stable, v) && forall k :: k in stable ==> Traceable(k, v.relations)
    ensures Holds(s, v)
  {
  }

  lemma {:induction false} RunHolds(tail: seq<View>, stable: set<Key>, s: Shape, n: nat)
    requires n <= Run(tail, stable, s)
    requires forall i, k :: 0 <= i < |tail| && k in stable ==> Traceable(k, tail[i].relations)
    ensures Streak(s, tail, n)
    decreases |tail|
  {
    if n > 0 {
      ShapeHolds(stable, tail[|tail| - 1], s);
      RunHolds(tail[..|tail| - 1], stable, s, n - 1);
    }
  }

  /** Every event any run emits had held in the last `polls` accepted observations. */
  lemma EventsConfirmed(start: Option<set<Key>>, actions: seq<Action>, polls: nat, i: nat, s: Shape)
    requires polls >= 1 && i < |actions|
    requires s in Emission(Follow(start, actions[..i], polls), actions[i], polls)
    ensures Streak(s, Follow(start, actions[..i + 1], polls).views, polls)
  {
    hide Follow;
    FollowOne(start, actions, i, polls);
    FollowFair(start, actions[..i], polls);
    StepConfirmed(Follow(start, actions[..i], polls), actions[i], polls, s);
  }

  lemma StepConfirmed(t: Topology, a: Action, polls: nat, s: Shape)
    requires Sound(t) && polls >= 1 && Fair(t) && s in Emission(t, a, polls)
    ensures Streak(s, Step(t, a, polls).views, polls)
  {
    var v := ViewOf(a.o, a.relations);
    var views := t.views + [v];
    var tail := views[t.mark..];
    assert tail[|tail| - 1] == v;
    assert Step(t, a, polls).views == views;
    StillFair(t, a, tail);
    hide Acceptable, ShapeSet, Holds, Step, See;
    RunDue(tail, t.stable, s, polls);
    hide Run;
    RunHolds(tail, t.stable, s, polls);
    TailStreak(views, t.mark, s, polls);
  }

  lemma StillFair(t: Topology, a: Action, tail: seq<View>)
    requires Sound(t) && Fair(t) && a.Poll? && Acceptable(t.stable, a.o, a.relations)
    requires tail == (t.views + [ViewOf(a.o, a.relations)])[t.mark..]
    ensures forall i, k :: 0 <= i < |tail| && k in t.stable ==> Traceable(k, tail[i].relations)
  {
    hide Traceable, Usable, DistinctKeys;
    forall i, k | 0 <= i < |tail| && k in t.stable
      ensures Traceable(k, tail[i].relations)
    {
      if i < |tail| - 1 { assert tail[i] == t.views[t.mark + i]; }
    }
  }

  lemma RunDue(tail: seq<View>, stable: set<Key>, s: Shape, polls: nat)
    requires polls >= 1 && Emits(tail, stable, polls) && s in ShapeSet(stable, tail[|tail| - 1])
    ensures Run(tail, stable, s) >= polls
  {
    hide ShapeSet;
    ModPositive(Run(tail, stable, s), polls);
  }

  lemma TailStreak(views: seq<View>, mark: nat, s: Shape, n: nat)
    requires mark <= |views| && Streak(s, views[mark..], n)
    ensures Streak(s, views, n)
  {
    hide Holds;
    assert forall j :: |views| - n <= j < |views| ==> views[j] == views[mark..][j - mark];
  }

  // ---------------------------------------------------------------------------
  // When persisting differences are emitted
  // ---------------------------------------------------------------------------

  /** The observations since the edges became stable. */
  ghost function Tail(t: Topology): seq<View>
    requires Sound(t)
  {
    t.views[t.mark..]
  }

  /** All differences of the view were first shown, in the streaks that last until now, by
      observations congruent modulo `polls`. */
  ghost predicate InStep(t: Topology, v: View, polls: nat)
    requires Sound(t) && polls >= 1
  {
    forall s, s' :: s in ShapeSet(t.stable, v) && s' in ShapeSet(t.stable, v) ==>
      Run(Tail(t), t.stable, s) % polls == Run(Tail(t), t.stable, s') % polls
  }

  function Copies(v: View, n: nat): (r: seq<View>)
    ensures |r| == n && forall i :: 0 <= i < n ==> r[i] == v
  {
    seq(n, i requires 0 <= i < n => v)
  }

  /** The same view, accepted `n` more times. */
  ghost function Again(t: Topology, v: View, n: nat, polls: nat): (r: Topology)
    requires Sound(t) && polls >= 1
    ensures Sound(r)
    decreases n
  {
    if n == 0 then t else See(Again(t, v, n - 1, polls), v, polls)
  }

  lemma {:induction false} RunRepeats(tail: seq<View>, stable: set<Key>, v: View, s: Shape, n: nat)
    requires s in ShapeSet(stable, v)
    ensures Run(tail + Copies(v, n), stable, s) == Run(tail, stable, s) + n
    decreases n
  {
    var all := tail + Copies(v, n);
    if n == 0 {
      assert all == tail;
    } else {
      assert all[..|all| - 1] == tail + Copies(v, n - 1) && all[|all| - 1] == v;
      RunRepeats(tail, stable, v, s, n - 1);
    }
  }

  /** After `n` copies the differences are due exactly when each count is a multiple. */
  lemma EmitsRepeated(tail: seq<View>, stable: set<Key>, v: View, n: nat, polls: nat)
    requires polls >= 1 && n >= 1
    ensures Emits(tail + Copies(v, n), stable, polls) <==>
      ShapeSet(stable, v) != {} && forall s :: s in ShapeSet(stable, v) ==> (Run(tail, stable, s) + n) % polls == 0
  {
    var all := tail + Copies(v, n);
    assert all[|all| - 1] == v;
    hide Run, ShapeSet;
    forall s | s in ShapeSet(stable, v)
      ensures Run(all, stable, s) % polls == (Run(tail, stable, s) + n) % polls
    {
      RunRepeats(tail, stable, v, s, n);
    }
  }

  ghost predicate Quiet(t: Topology, v: View, n: nat, polls: nat)
    requires Sound(t) && polls >= 1
  {
    forall m :: 1 <= m <= n ==> !Emits(Tail(t) + Copies(v, m), t.stable, polls)
  }

  lemma {:induction false} QuietKeeps(t: Topology, v: View, n: nat, polls: nat)
    requires Sound(t) && polls >= 1 && t.initialized && Quiet(t, v, n, polls)
    ensures Again(t, v, n, polls) == t.(views := t.views + Copies(v, n))
    decreases n
  {
    hide Emits;
    if n == 0 {
      assert t.views + Copies(v, 0) == t.views;
    } else {
      QuietKeeps(t, v, n - 1, polls);
      var views := t.views + Copies(v, n - 1) + [v];
      assert views == t.views + Copies(v, n);
      assert views[t.mark..] == Tail(t) + Copies(v, n);
    }
  }

  lemma SameEdgesNoShape(v: View)
    ensures ShapeSet(v.edges, v) == {}
  {
  }

  /** Once stable, the same view changes nothing. */
  lemma {:induction false} StableStays(t: Topology, v: View, n: nat, polls: nat)
    requires Sound(t) && polls >= 1 && t.initialized && t.stable == v.edges
    ensures Again(t, v, n, polls).stable == v.edges && Again(t, v, n, polls).initialized
    decreases n
  {
    if n > 0 {
      StableStays(t, v, n - 1, polls);
      SameEdgesNoShape(v);
      var u := Again(t, v, n - 1, polls);
      assert (u.views + [v])[u.mark..][|u.views| - u.mark] == v;
    }
  }

  lemma {:induction false} AgainSplits(t: Topology, v: View, m: nat, n: nat, polls: nat)
    requires Sound(t) && polls >= 1
    ensures Again(t, v, m + n, polls) == Again(Again(t, v, m, polls), v, n, polls)
    decreases n
  {
    hide See;
    if n > 0 { AgainSplits(t, v, m, n - 1, polls); }
  }

  /** Progress, exactly: differences that persist become stable, within `polls` further
      observations, if they are in step; otherwise they never do. */
  lemma ConvergesIffInStep(t: Topology, v: View, n: nat, polls: nat)
    requires Sound(t) && polls >= 1 && t.initialized
    ensures InStep(t, v, polls) && n >= polls ==> Again(t, v, n, polls).stable == v.edges
    ensures !InStep(t, v, polls) ==> Again(t, v, n, polls).stable == t.stable != v.edges
  {
    hide InStep, Again, Quiet, ShapeSet;
    if !InStep(t, v, polls) {
      OutOfStepQuiet(t, v, n, polls);
      QuietKeeps(t, v, n, polls);
      SameEdgesInStep(t, v, polls);
    } else if n >= polls {
      if ShapeSet(t.stable, v) == {} {
        NoShapeSameEdges(t.stable, v);
        StableStays(t, v, n, polls);
      } else {
        var m := InStepEmits(t, v, polls);
        AgainSplits(t, v, m, n - m, polls);
        StableStays(Again(t, v, m, polls), v, n - m, polls);
      }
    }
  }

  lemma SameEdgesInStep(t: Topology, v: View, polls: nat)
    requires Sound(t) && polls >= 1
    ensures t.stable == v.edges ==> InStep(t, v, polls)
  {
    SameEdgesNoShape(v);
  }

  lemma NoShapeSameEdges(stable: set<Key>, v: View)
    requires ShapeSet(stable, v) == {}
    ensures stable == v.edges
  {
    forall k
      ensures k in stable <==> k in v.edges
    {
      assert Attached(k) !in ShapeSet(stable, v);
      assert (if k.child in v.relations then Detached(k) else Dropped(k)) !in ShapeSet(stable, v);
    }
  }

  /** Two differences whose counts differ modulo `polls` are never due together. */
  lemma NeverTogether(tail: seq<View>, stable: set<Key>, v: View, s: Shape, s': Shape, m: nat, polls: nat)
    requires polls >= 1 && m >= 1 && s in ShapeSet(stable, v) && s' in ShapeSet(stable, v)
    requires Run(tail, stable, s) % polls != Run(tail, stable, s') % polls
    ensures !Emits(tail + Copies(v, m), stable, polls)
  {
    hide Emits, Run, ShapeSet;
    EmitsRepeated(tail, stable, v, m, polls);
    ModShift(Run(tail, stable, s), Run(tail, stable, s'), m, polls);
  }

  lemma OutOfStepQuiet(t: Topology, v: View, n: nat, polls: nat)
    requires Sound(t) && polls >= 1 && !InStep(t, v, polls)
    ensures Quiet(t, v, n, polls)
  {
    var s, s' :| s in ShapeSet(t.stable, v) && s' in ShapeSet(t.stable, v) &&
      Run(Tail(t), t.stable, s) % polls != Run(Tail(t), t.stable, s') % polls;
    hide Emits, Run, ShapeSet, Tail, Copies;
    forall m | 1 <= m <= n
      ensures !Emits(Tail(t) + Copies(v, m), t.stable, polls)
    {
      NeverTogether(Tail(t), t.stable, v, s, s', m, polls);
    }
  }

  /** In step, the differences come out together at the first multiple. */
  lemma InStepEmits(t: Topology, v: View, polls: nat) returns (m: nat)
    requires Sound(t) && polls >= 1 && t.initialized && InStep(t, v, polls) && ShapeSet(t.stable, v) != {}
    ensures 1 <= m <= polls && Again(t, v, m, polls).stable == v.edges && Again(t, v, m, polls).initialized
  {
    var s :| s in ShapeSet(t.stable, v);
    var r := Run(Tail(t), t.stable, s);
    m := polls - r % polls;
    ModReaches(r, polls);
    forall k | 1 <= k <= m
      ensures Emits(Tail(t) + Copies(v, k), t.stable, polls) <==> k == m
    {
      DueTogether(t, v, s, k, polls);
    }
    QuietKeeps(t, v, m - 1, polls);
    var views := t.views + Copies(v, m - 1) + [v];
    assert views[t.mark..] == Tail(t) + Copies(v, m);
  }

  lemma DueTogether(t: Topology, v: View, s: Shape, k: nat, polls: nat)
    requires Sound(t) && polls >= 1 && InStep(t, v, polls) && s in ShapeSet(t.stable, v)
    requires 1 <= k <= polls - Run(Tail(t), t.stable, s) % polls
    ensures Emits(Tail(t) + Copies(v, k), t.stable, polls) <==> k == polls - Run(Tail(t), t.stable, s) % polls
  {
    hide Run, ShapeSet, Emits, Tail;
    var r := Run(Tail(t), t.stable, s);
    EmitsRepeated(Tail(t), t.stable, v, k, polls);
    ModReaches(r, polls);
    if k < polls - r % polls {
      assert r + k == (r / polls) * polls + (r % polls + k);
      ModUnique(r + k, r / polls, r % polls + k, polls);
    } else {
      forall s' | s' in ShapeSet(t.stable, v)
        ensures (Run(Tail(t), t.stable, s') + k) % polls == 0
      {
        ModShift(r, Run(Tail(t), t.stable, s'), k, polls);
      }
    }
  }

  /** The accepted observation that began the streak of a difference; the next one, for a
      difference not shown yet. */
  ghost function FirstSeen(t: Topology, s: Shape): nat
    requires Sound(t)
  {
    RunBounded(Tail(t), t.stable, s);
    |t.views| - Run(Tail(t), t.stable, s)
  }

  lemma {:induction false} RunBounded(tail: seq<View>, stable: set<Key>, s: Shape)
    ensures Run(tail, stable, s) <= |tail|
    decreases |tail|
  {
    if tail != [] { RunBounded(tail[..|tail| - 1], stable, s); }
  }

  lemma InStepByFirstSeen(t: Topology, v: View, polls: nat)
    requires Sound(t) && polls >= 1
    ensures InStep(t, v, polls) <==> forall s, s' :: s in ShapeSet(t.stable, v) && s' in ShapeSet(t.stable, v) ==>
      FirstSeen(t, s) % polls == FirstSeen(t, s') % polls
  {
    assert |Tail(t)| <= |t.views|;
    hide ShapeSet, Run, Tail;
    forall s, s'
      ensures FirstSeen(t, s) % polls == FirstSeen(t, s') % polls <==>
        Run(Tail(t), t.stable, s) % polls == Run(Tail(t), t.stable, s') % polls
    {
      RunBounded(Tail(t), t.stable, s);
      RunBounded(Tail(t), t.stable, s');
      Complement(|t.views|, Run(Tail(t), t.stable, s), Run(Tail(t), t.stable, s'), polls);
    }
    hide FirstSeen;
  }

  lemma Complement(n: nat, a: nat, b: nat, m: nat)
    requires a <= n && b <= n && m >= 1
    ensures (n - a) % m == (n - b) % m <==> a % m == b % m
  {
    ModShift(n - a, n - b, a + b, m);
    ModShift(a, b, n, m);
    assert n - a + (a + b) == b + n && n - b + (a + b) == a + n;
  }

  function Polls(o: Observation, relations: Relations, n: nat): (r: seq<Action>)
    ensures |r| == n && forall i :: 0 <= i < n ==> r[i] == Poll(o, relations)
  {
    seq(n, i requires 0 <= i < n => Poll(o, relations))
  }

  lemma FollowMore(start: Option<set<Key>>, actions: seq<Action>, a: Action, polls: nat)
    requires polls >= 1
    ensures Follow(start, actions + [a], polls) == Step(Follow(start, actions, polls), a, polls)
  {
    assert (actions + [a])[..|actions|] == actions;
  }

  /** Polling the same acceptable observation again and again. */
  lemma {:induction false} FollowPolls(start: Option<set<Key>>, actions: seq<Action>, o: Observation, relations: Relations,
                                       n: nat, polls: nat)
    requires polls >= 1 && Acceptable(Follow(start, actions, polls).stable, o, relations)
    ensures var t := Follow(start, actions + Polls(o, relations, n), polls);
      t == Again(Follow(start, actions, polls), ViewOf(o, relations), n, polls) && Acceptable(t.stable, o, relations)
    decreases n
  {
    hide Follow, Step, See, Acceptable, ViewOf;
    if n == 0 {
      assert actions + Polls(o, relations, 0) == actions;
    } else {
      FollowPolls(start, actions, o, relations, n - 1, polls);
      assert actions + Polls(o, relations, n) == actions + Polls(o, relations, n - 1) + [Poll(o, relations)];
      FollowMore(start, actions + Polls(o, relations, n - 1), Poll(o, relations), polls);
      PollAgain(Follow(start, actions + Polls(o, relations, n - 1), polls), o, relations, polls);
    }
  }

  /** An observation accepted once is accepted again. */
  lemma PollAgain(t: Topology, o: Observation, relations: Relations, polls: nat)
    requires Sound(t) && polls >= 1 && Acceptable(t.stable, o, relations)
    ensures var u := Step(t, Poll(o, relations), polls);
      u == See(t, ViewOf(o, relations), polls) && Acceptable(u.stable, o, relations)
  {
    hide Emits, Usable, DistinctKeys;
    forall k | k in KeysOf(o.edges)
      ensures Traceable(k, relations)
    {
      var e :| e in o.edges && KeyOf(e) == k;
      assert Backed(e, relations);
    }
  }

  /** Progress over runs: a run that goes on observing the same acceptable topology makes it
      stable within `polls` polls if its differences are in step, and otherwise never. */
  lemma PersistingPolls(start: Option<set<Key>>, actions: seq<Action>, o: Observation, relations: Relations, n: nat, polls: nat)
    requires polls >= 1 && Follow(start, actions, polls).initialized
    requires Acceptable(Follow(start, actions, polls).stable, o, relations)
    ensures var t, u := Follow(start, actions, polls), Follow(start, actions + Polls(o, relations, n), polls);
      (InStep(t, ViewOf(o, relations), polls) && n >= polls ==> u.stable == KeysOf(o.edges)) &&
      (!InStep(t, ViewOf(o, relations), polls) ==> u.stable == t.stable != KeysOf(o.edges))
  {
    FollowPolls(start, actions, o, relations, n, polls);
    hide Follow, InStep, Acceptable;
    ConvergesIffInStep(Follow(start, actions, polls), ViewOf(o, relations), n, polls);
  }

  /** For any `confirm_polls` above one, two attachments first seen one poll apart are never
      emitted, however long both persist. */
  lemma NeverConverges(a: Edge, b: Edge, relations: Relations, n: nat, polls: nat)
    requires KeyOf(a) != KeyOf(b) && Complete(a) && Complete(b) && Backed(a, relations) && Backed(b, relations) && polls >= 2
    ensures var first, both := Observation([a], true, 1), Observation([a, b], true, 1);
      Follow(Some({}), [Poll(first, relations)] + Polls(both, relations, n), polls).stable == {}
  {
    var first, both := Observation([a], true, 1), Observation([a, b], true, 1);
    Shows(a, b, relations);
    var u, v := View({KeyOf(a)}, relations), View({KeyOf(a), KeyOf(b)}, relations);
    var x, y := Attached(KeyOf(a)), Attached(KeyOf(b));
    OneRun(u, x, y, polls);
    hide Acceptable, Complete, Backed, KeyOf, Emits, Run;
    FirstPoll(first, relations, u, polls);
    var t := Follow(Some({}), [Poll(first, relations)], polls);
    assert Tail(t) == [u] && x in ShapeSet({}, v) && y in ShapeSet({}, v);
    hide ShapeSet, Follow;
    PersistingPolls(Some({}), [Poll(first, relations)], both, relations, n, polls);
  }

  lemma FirstPoll(o: Observation, relations: Relations, u: View, polls: nat)
    requires polls >= 1 && Acceptable({}, o, relations) && u == ViewOf(o, relations) && !Emits([u], {}, polls)
    ensures Follow(Some({}), [Poll(o, relations)], polls) == Topology(true, {}, 0, [u])
  {
    hide Acceptable, Emits;
    assert [Poll(o, relations)][..0] == [];
    assert Follow(Some({}), [], polls) == Topology(true, {}, 0, []);
    assert ([] + [u])[0..] == [u];
  }

  lemma Shows(a: Edge, b: Edge, relations: Relations)
    requires KeyOf(a) != KeyOf(b) && Complete(a) && Complete(b) && Backed(a, relations) && Backed(b, relations)
    ensures Acceptable({}, Observation([a], true, 1), relations) && Acceptable({}, Observation([a, b], true, 1), relations)
    ensures ViewOf(Observation([a], true, 1), relations) == View({KeyOf(a)}, relations)
    ensures ViewOf(Observation([a, b], true, 1), relations) == View({KeyOf(a), KeyOf(b)}, relations)
  {
    assert a in [a] && a in [a, b] && b in [a, b];
  }

  lemma OneRun(u: View, x: Shape, y: Shape, polls: nat)
    requires polls >= 2 && x in ShapeSet({}, u) && y !in ShapeSet({}, u)
    ensures Run([u], {}, x) == 1 && Run([u], {}, y) == 0 && 1 % polls == 1 && 0 % polls == 0 && !Emits([u], {}, polls)
  {
    assert [u][..0] == [];
    ModUnique(1, 0, 1, polls);
    ModUnique(0, 0, 0, polls);
  }
}
