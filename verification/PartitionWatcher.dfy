/** The partition watcher of src/cdc_flight/catalog_lifecycle.py as it runs: a stable
    snapshot, a table of transitions still being confirmed, and the transitions queued.
    Every poll is proved to do what `PartitionTopology` says. */
module PartitionWatcher {
  import opened Options
  import opened Sequences
  import opened PartitionTopology

  /** A transition being confirmed, or queued. */
  datatype Change = Change(shape: Shape, edge: Edge, lsn: int, confirmations: nat)

  function ShapesOf(changes: seq<Change>): (shapes: seq<Shape>)
    ensures |shapes| == |changes| && forall i :: 0 <= i < |changes| ==> shapes[i] == changes[i].shape
  {
    seq(|changes|, i requires 0 <= i < |changes| => changes[i].shape)
  }

  ghost predicate Keyed(snapshot: map<Key, Edge>) {
    forall k :: k in snapshot ==> KeyOf(snapshot[k]) == k
  }

  /** A queued transition has already entered the snapshot. */
  ghost predicate Entered(live: seq<Change>, edges: set<Key>) {
    forall c :: c in live ==> (c.shape.Attached? <==> c.shape.key in edges)
  }

  // ---------------------------------------------------------------------------
  // The table of streaks
  // ---------------------------------------------------------------------------

  /** How often a transition has been seen since its streak began or was last confirmed. */
  function Prior(unconfirmed: map<Shape, Change>, s: Shape): nat {
    if s in unconfirmed then unconfirmed[s].confirmations else 0
  }

  /** The count after one more observation: a confirmed streak starts over. */
  function Bump(n: nat, polls: nat): nat {
    if n + 1 < polls then n + 1 else 0
  }

  ghost predicate WellFormed(unconfirmed: map<Shape, Change>, polls: nat) {
    forall s :: s in unconfirmed ==> unconfirmed[s].shape == s && 0 < unconfirmed[s].confirmations < polls
  }

  /** Each count is the length of the streak, modulo the number of confirming polls. */
  ghost predicate Counts(unconfirmed: map<Shape, Change>, t: Topology, polls: nat)
    requires Sound(t) && polls >= 1
  {
    forall s :: Prior(unconfirmed, s) == Run(Tail(t), t.stable, s) % polls
  }

  ghost predicate Tallies(before: map<Shape, Change>, shapes: seq<Shape>, after: map<Shape, Change>, polls: nat) {
    forall s :: Prior(after, s) == if s in shapes then Bump(Prior(before, s), polls) else Prior(before, s)
  }

  lemma TalliesOne(before: map<Shape, Change>, shapes: seq<Shape>, i: nat, u: map<Shape, Change>, u': map<Shape, Change>, polls: nat)
    requires i < |shapes| && shapes[i] !in shapes[..i] && Tallies(before, shapes[..i], u, polls)
    requires forall s :: s != shapes[i] ==> Prior(u', s) == Prior(u, s)
    requires Prior(u', shapes[i]) == Bump(Prior(u, shapes[i]), polls)
    ensures Tallies(before, shapes[..i + 1], u', polls)
  {
    assert shapes[..i + 1] == shapes[..i] + [shapes[i]];
    hide Bump, Prior;
  }

  /** Of the first `i` shapes, all are ready exactly when each completes its streak. */
  ghost predicate ReadyTo(shapes: seq<Shape>, i: nat, ready: seq<Shape>, before: map<Shape, Change>, polls: nat)
    requires i <= |shapes|
  {
    |ready| <= i && (|ready| == i ==> ready == shapes[..i]) &&
    (|ready| == i <==> forall j :: 0 <= j < i ==> polls <= Prior(before, shapes[j]) + 1)
  }

  lemma ReadyOne(shapes: seq<Shape>, i: nat, ready: seq<Shape>, before: map<Shape, Change>, polls: nat, confirmed: bool)
    requires i < |shapes| && ReadyTo(shapes, i, ready, before, polls)
    requires confirmed <==> polls <= Prior(before, shapes[i]) + 1
    ensures ReadyTo(shapes, i + 1, if confirmed then ready + [shapes[i]] else ready, before, polls)
  {
    hide Prior;
    assert shapes[..i + 1] == shapes[..i] + [shapes[i]];
  }

  // ---------------------------------------------------------------------------
  // One observation, in counters and in runs
  // ---------------------------------------------------------------------------

  lemma RunOne(t: Topology, v: View, s: Shape)
    requires Sound(t)
    ensures var tail := (t.views + [v])[t.mark..];
      tail == Tail(t) + [v] && Run(tail, t.stable, s) == if s in ShapeSet(t.stable, v) then Run(Tail(t), t.stable, s) + 1 else 0
  {
    var tail := (t.views + [v])[t.mark..];
    assert tail == Tail(t) + [v] && tail[..|tail| - 1] == Tail(t);
  }

  /** A streak is complete exactly when its length becomes a multiple of `polls`, and the
      count follows the length. */
  lemma CountOne(t: Topology, v: View, s: Shape, polls: nat)
    requires Sound(t) && polls >= 1 && s in ShapeSet(t.stable, v)
    ensures var tail := (t.views + [v])[t.mark..];
      (polls <= Run(Tail(t), t.stable, s) % polls + 1 <==> Run(tail, t.stable, s) % polls == 0) &&
      Bump(Run(Tail(t), t.stable, s) % polls, polls) == Run(tail, t.stable, s) % polls
  {
    RunOne(t, v, s);
    ModSucc(Run(Tail(t), t.stable, s), polls);
  }

  /** All candidates are ready exactly when the observation emits. */
  lemma ReadyIffEmits(t: Topology, v: View, u: map<Shape, Change>, polls: nat)
    requires Sound(t) && polls >= 1 && Counts(u, t, polls)
    ensures Emits((t.views + [v])[t.mark..], t.stable, polls) <==>
      ShapeSet(t.stable, v) != {} && forall s :: s in ShapeSet(t.stable, v) ==> polls <= Prior(u, s) + 1
  {
    var tail := (t.views + [v])[t.mark..];
    assert tail[|tail| - 1] == v;
    hide Run, ShapeSet, Prior;
    forall s | s in ShapeSet(t.stable, v)
      ensures polls <= Prior(u, s) + 1 <==> Run(tail, t.stable, s) % polls == 0
    {
      CountOne(t, v, s, polls);
    }
  }

  /** The counts after an observation are the lengths after it. */
  lemma CountsAfter(t: Topology, v: View, u: map<Shape, Change>, u': map<Shape, Change>, polls: nat)
    requires Sound(t) && polls >= 1 && t.initialized && Counts(u, t, polls)
    requires forall s :: Prior(u', s) == if s in ShapeSet(t.stable, v) then Bump(Prior(u, s), polls) else 0
    ensures Counts(u', See(t, v, polls), polls)
  {
    var r := See(t, v, polls);
    var emits := Emits((t.views + [v])[t.mark..], t.stable, polls);
    ReadyIffEmits(t, v, u, polls);
    assert emits ==> Tail(r) == [];
    hide Emits, ShapeSet, Prior;
    forall s
      ensures Prior(u', s) == Run(Tail(r), r.stable, s) % polls
    {
      if emits {
        Zero(r.stable, s, polls);
      } else {
        RunOne(t, v, s);
        if s in ShapeSet(t.stable, v) { CountOne(t, v, s, polls); } else { Zero(t.stable, s, polls); }
      }
    }
  }

  lemma Zero(stable: set<Key>, s: Shape, polls: nat)
    requires polls >= 1
    ensures Run([], stable, s) == 0 && 0 % polls == 0
  {
    ModUnique(0, 0, 0, polls);
  }

  lemma ListsMore(batch: seq<Shape>, shapes: set<Shape>, s: Shape)
    requires Lists(batch, shapes) && forall x :: x in shapes ==> x.key != s.key
    ensures Lists(batch + [s], shapes + {s})
  {
    assert forall i :: 0 <= i < |batch| ==> batch[i] in shapes;
  }

  lemma NothingListed()
    ensures Lists(ShapesOf([]), {})
  {
  }

  lemma ListedOnce(batch: seq<Shape>, shapes: set<Shape>, i: nat)
    requires Lists(batch, shapes) && i < |batch|
    ensures batch[i] !in batch[..i]
  {
  }

  // ---------------------------------------------------------------------------
  // The watcher
  // ---------------------------------------------------------------------------

  class Watcher {
    const polls: nat
    var snapshot: map<Key, Edge>
    var initialized: bool
    var unconfirmed: map<Shape, Change>
    var live: seq<Change>
    ghost var t: Topology

    constructor (confirmPolls: int, edges: Option<map<Key, Edge>>)
      requires edges.Some? ==> Keyed(edges.value)
      ensures Valid() && polls == (if confirmPolls < 1 then 1 else confirmPolls)
      ensures t == Initial(if edges.Some? then Some(edges.value.Keys) else None)
    {
      polls := if confirmPolls < 1 then 1 else confirmPolls;
      snapshot := if edges.Some? then edges.value else map[];
      initialized := edges.Some?;
      unconfirmed, live := map[], [];
      t := Initial(if edges.Some? then Some(edges.value.Keys) else None);
      new;
      forall s
        ensures Prior(unconfirmed, s) == Run(Tail(t), t.stable, s) % polls
      {
        Zero(t.stable, s, polls);
      }
    }

    ghost predicate Valid()
      reads this
    {
      polls >= 1 && Sound(t) && Keyed(snapshot) && t.initialized == initialized && t.stable == snapshot.Keys &&
      (!initialized ==> snapshot == map[] && live == [] && unconfirmed == map[] && t.views == []) &&
      WellFormed(unconfirmed, polls) && Counts(unconfirmed, t, polls) && Entered(live, snapshot.Keys)
    }

    lemma Stable()
      requires Valid()
      ensures t.stable == snapshot.Keys && Sound(t) && polls >= 1
    {
    }

    /** Whether the observation is evidence at all, and the edges it shows by key. */
    method Read(o: Observation, relations: Relations) returns (current: Option<map<Key, Edge>>)
      requires Keyed(snapshot)
      ensures current.Some? <==> Acceptable(snapshot.Keys, o, relations)
      ensures current.Some? ==> Keyed(current.value) && current.value.Keys == KeysOf(o.edges)
    {
      if !Usable(o) { return None; }
      var edges: map<Key, Edge> := map[];
      for i := 0 to |o.edges|
        invariant Keyed(edges) && edges.Keys == KeysOf(o.edges[..i])
        invariant DistinctKeys(o.edges[..i]) && forall e :: e in o.edges[..i] ==> Backed(e, relations)
      {
        var edge := o.edges[i];
        assert edge in o.edges;
        assert o.edges[..i + 1] == o.edges[..i] + [edge];
        if KeyOf(edge) in edges {
          var j :| 0 <= j < i && KeyOf(o.edges[j]) == KeyOf(edge);
          return None;
        }
        if !Backed(edge, relations) { return None; }
        forall j | 0 <= j < i
          ensures KeyOf(o.edges[j]) != KeyOf(edge)
        {
          assert o.edges[j] in o.edges[..i];
        }
        edges := edges[KeyOf(edge) := edge];
      }
      assert o.edges[..|o.edges|] == o.edges;
      var keys := snapshot.Keys;
      while keys != {}
        invariant keys <= snapshot.Keys
        invariant forall k :: k in snapshot && k !in keys ==> Traceable(k, relations)
      {
        var k :| k in keys;
        if !Traceable(KeyOf(snapshot[k]), relations) { return None; }
        keys := keys - {k};
      }
      return Some(edges);
    }

    /** Every difference between the snapshot and the observed edges, first the new edges. */
    method Candidates(current: map<Key, Edge>, relations: Relations, lsn: int) returns (changes: seq<Change>)
      ensures Lists(ShapesOf(changes), ShapeSet(snapshot.Keys, View(current.Keys, relations)))
      ensures forall c :: c in changes ==> c.confirmations == 1
    {
      changes := [];
      ghost var stable, view := snapshot.Keys, View(current.Keys, relations);
      var added := current.Keys - snapshot.Keys;
      NoneYet(stable, view);
      hide Lists, ShapesSo, ShapeSet;
      while added != {}
        invariant added <= current.Keys - snapshot.Keys
        invariant Lists(ShapesOf(changes), ShapesSo(stable, view, added, stable - view.edges))
        invariant forall c :: c in changes ==> c.confirmations == 1
      {
        var k :| k in added;
        OneAdded(changes, Change(Attached(k), current[k], lsn, 1), stable, view, added);
        changes, added := changes + [Change(Attached(k), current[k], lsn, 1)], added - {k};
      }
      var removed := snapshot.Keys - current.Keys;
      while removed != {}
        invariant removed <= snapshot.Keys - current.Keys
        invariant Lists(ShapesOf(changes), ShapesSo(stable, view, {}, removed))
        invariant forall c :: c in changes ==> c.confirmations == 1
      {
        var k :| k in removed;
        OneRemoved(changes, Change(Lost(k, relations), snapshot[k], lsn, 1), stable, view, k, removed);
        changes, removed := changes + [Change(Lost(k, relations), snapshot[k], lsn, 1)], removed - {k};
      }
      AllSo(stable, view);
    }

    /** Count one more poll for a transition; it is confirmed once enough polls in a row
        have shown it, and then its streak starts over. */
    method Confirm(change: Change) returns (confirmed: Option<Change>)
      requires WellFormed(unconfirmed, polls) && change.confirmations == 1
      modifies this`unconfirmed
      ensures WellFormed(unconfirmed, polls)
      ensures forall s :: s != change.shape ==> Prior(unconfirmed, s) == Prior(old(unconfirmed), s)
      ensures Prior(unconfirmed, change.shape) == Bump(Prior(old(unconfirmed), change.shape), polls)
      ensures confirmed.Some? <==> polls <= Prior(old(unconfirmed), change.shape) + 1
      ensures confirmed.Some? ==> confirmed.value.shape == change.shape
    {
      var tracked := change;
      if change.shape in unconfirmed {
        var seen := unconfirmed[change.shape];
        tracked := seen.(confirmations := seen.confirmations + 1, lsn := change.lsn);
      }
      if tracked.confirmations < polls {
        unconfirmed := unconfirmed[change.shape := tracked];
        return None;
      }
      unconfirmed := unconfirmed - {change.shape};
      return Some(tracked);
    }

    /** Drop the streaks and the queued transitions this observation contradicts, and no
        others. */
    method Supersede(changes: seq<Change>, view: View)
      requires WellFormed(unconfirmed, polls)
      modifies this`unconfirmed, this`live
      ensures WellFormed(unconfirmed, polls)
      ensures forall s :: s in unconfirmed <==> s in old(unconfirmed) && s in ShapesOf(changes)
      ensures forall s :: s in unconfirmed ==> unconfirmed[s] == old(unconfirmed)[s]
      ensures forall c :: c in live <==> c in old(live) && Holds(c.shape, view)
    {
      var shapes := set c | c in changes :: c.shape;
      unconfirmed := map s | s in unconfirmed && s in shapes :: unconfirmed[s];
      live := Keep(live, (c: Change) => Holds(c.shape, view));
      forall s
        ensures s in shapes <==> s in ShapesOf(changes)
      {
        if s in shapes {
          var c :| c in changes && c.shape == s;
          var i :| 0 <= i < |changes| && changes[i] == c;
          assert ShapesOf(changes)[i] == s;
        }
      }
    }

    /** Confirm every candidate; all of them are ready or nothing is. */
    method ConfirmAll(changes: seq<Change>, ghost shapes: set<Shape>) returns (ready: seq<Change>)
      requires WellFormed(unconfirmed, polls) && Lists(ShapesOf(changes), shapes)
      requires forall c :: c in changes ==> c.confirmations == 1 && Effective(snapshot.Keys, c.shape)
      requires Entered(live, snapshot.Keys)
      modifies this`unconfirmed
      ensures WellFormed(unconfirmed, polls)
      ensures Tallies(old(unconfirmed), ShapesOf(changes), unconfirmed, polls)
      ensures ReadyTo(ShapesOf(changes), |changes|, ShapesOf(ready), old(unconfirmed), polls)
    {
      ready := [];
      ghost var before, all := unconfirmed, ShapesOf(changes);
      assert all[..0] == [];
      assert Tallies(before, all[..0], unconfirmed, polls);
      assert ReadyTo(all, 0, ShapesOf(ready), before, polls);
      NeverQueued(changes, live, snapshot.Keys);
      hide Tallies, ReadyTo, Lists, WellFormed, Entered, Effective, AlreadyLive, Prior, Bump;
      for i := 0 to |changes|
        invariant WellFormed(unconfirmed, polls)
        invariant Tallies(before, all[..i], unconfirmed, polls)
        invariant ReadyTo(all, i, ShapesOf(ready), before, polls)
      {
        assert changes[i] in changes;
        if AlreadyLive(live, changes[i].shape) {
          // A queued transition is part of the snapshot, so it is never a difference again.
          assert false;
        }
        ListedOnce(all, shapes, i);
        ghost var was := unconfirmed;
        var confirmed := Confirm(changes[i]);
        PriorKept(before, all, i, was, polls);
        TalliesOne(before, all, i, was, unconfirmed, polls);
        ReadyOne(all, i, ShapesOf(ready), before, polls, confirmed.Some?);
        if confirmed.Some? {
          assert ShapesOf(ready + [confirmed.value]) == ShapesOf(ready) + [all[i]];
          ready := ready + [confirmed.value];
        }
      }
      assert all[..|all|] == all;
    }

    /** One poll. A rejected observation changes nothing; an accepted one does to the stable
        edges, and emits, what the topology says. */
    method ComparePartitions(o: Observation, relations: Relations) returns (ready: seq<Change>)
      requires Valid()
      modifies this
      ensures Valid() && t == Step(old(t), Poll(o, relations), polls)
      ensures Lists(ShapesOf(ready), Emission(old(t), Poll(o, relations), polls))
      ensures !Acceptable(old(t).stable, o, relations) ==> unchanged(this)
    {
      hide Counts, WellFormed, Entered, Emits, ShapeSet;
      var read := Read(o, relations);
      if read.None? { return []; }
      if !initialized {
        Begin(read.value, relations);
        return [];
      }
      ready := Compare(read.value, relations, o.lsn);
    }

    /** The first accepted observation is the baseline. */
    method Begin(current: map<Key, Edge>, ghost relations: Relations)
      requires Valid() && !initialized && Keyed(current)
      modifies this`snapshot, this`initialized, this`t
      ensures Valid() && t == See(old(t), View(current.Keys, relations), polls)
    {
      snapshot, initialized := current, true;
      t := See(t, View(current.Keys, relations), polls);
      forall s
        ensures Prior(unconfirmed, s) == Run(Tail(t), t.stable, s) % polls
      {
        Zero(t.stable, s, polls);
      }
    }

    method Compare(current: map<Key, Edge>, relations: Relations, lsn: int) returns (ready: seq<Change>)
      requires Valid() && initialized && Keyed(current) && forall k :: k in snapshot.Keys ==> Traceable(k, relations)
      modifies this`unconfirmed, this`live, this`snapshot, this`t
      ensures Valid() && t == See(old(t), View(current.Keys, relations), polls)
      ensures Lists(ShapesOf(ready),
        if Emits((old(t).views + [View(current.Keys, relations)])[old(t).mark..], old(t).stable, polls)
        then ShapeSet(old(t).stable, View(current.Keys, relations)) else {})
    {
      hide Emits, ShapeSet, Counts, WellFormed, Lists, Tallies, ReadyTo, Holds, Entered;
      var view := View(current.Keys, relations);
      ghost var shapes := ShapeSet(snapshot.Keys, view);
      var changes := Candidates(current, relations, lsn);
      CandidatesEffective(changes, snapshot.Keys, view);
      ghost var before := unconfirmed;
      Supersede(changes, view);
      ghost var trimmed := unconfirmed;
      EnteredKept(old(live), live, snapshot.Keys, view);
      ready := ConfirmAll(changes, shapes);
      CountsNow(t, view, changes, before, trimmed, unconfirmed, polls);
      ReadyNow(t, view, changes, ready, before, trimmed, polls);
      t := See(t, view, polls);
      NothingListed();
      if ready == [] || |ready| != |changes| { return []; }
      EnteredAll(live, changes, ready, old(snapshot).Keys, view);
      live := live + ready;
      snapshot := current;
    }

    /** A plan committed these transitions (`settle`, `resolve`), or superseded them. */
    method Settle(done: set<Shape>)
      requires Valid()
      modifies this`live
      ensures Valid() && live == Keep(old(live), (c: Change) => c.shape !in done)
    {
      live := Keep(live, (c: Change) => c.shape !in done);
    }

    /** The relation is gone from the destination. */
    method Forget(name: string)
      requires Valid()
      modifies this`live
      ensures Valid() && live == Keep(old(live), (c: Change) => c.shape.key.child != name)
    {
      live := Keep(live, (c: Change) => c.shape.key.child != name);
    }
  }

  /** The differences but for those of the edges still to be listed. */
  ghost function ShapesSo(stable: set<Key>, view: View, added: set<Key>, removed: set<Key>): set<Shape> {
    set s | s in ShapeSet(stable, view) && s.key !in added && s.key !in removed
  }

  lemma NoneYet(stable: set<Key>, view: View)
    ensures Lists(ShapesOf([]), ShapesSo(stable, view, view.edges - stable, stable - view.edges))
  {
  }

  lemma AllSo(stable: set<Key>, view: View)
    ensures ShapesSo(stable, view, {}, {}) == ShapeSet(stable, view)
  {
  }

  lemma OneAdded(changes: seq<Change>, c: Change, stable: set<Key>, view: View, added: set<Key>)
    requires Lists(ShapesOf(changes), ShapesSo(stable, view, added, stable - view.edges))
    requires c.shape == Attached(c.shape.key) && c.shape.key in added && added <= view.edges - stable
    ensures Lists(ShapesOf(changes + [c]), ShapesSo(stable, view, added - {c.shape.key}, stable - view.edges))
  {
    var so := ShapesSo(stable, view, added, stable - view.edges);
    ListsMore(ShapesOf(changes), so, c.shape);
    assert ShapesSo(stable, view, added - {c.shape.key}, stable - view.edges) == so + {c.shape};
    assert ShapesOf(changes + [c]) == ShapesOf(changes) + [c.shape];
  }

  lemma OneRemoved(changes: seq<Change>, c: Change, stable: set<Key>, view: View, k: Key, removed: set<Key>)
    requires Lists(ShapesOf(changes), ShapesSo(stable, view, {}, removed))
    requires c.shape == Lost(k, view.relations) && k in removed && removed <= stable - view.edges
    ensures Lists(ShapesOf(changes + [c]), ShapesSo(stable, view, {}, removed - {k}))
  {
    var so := ShapesSo(stable, view, {}, removed);
    ListsMore(ShapesOf(changes), so, c.shape);
    assert ShapesSo(stable, view, {}, removed - {k}) == so + {c.shape};
    assert ShapesOf(changes + [c]) == ShapesOf(changes) + [c.shape];
  }

  lemma PriorKept(before: map<Shape, Change>, shapes: seq<Shape>, i: nat, u: map<Shape, Change>, polls: nat)
    requires i < |shapes| && shapes[i] !in shapes[..i] && Tallies(before, shapes[..i], u, polls)
    ensures Prior(u, shapes[i]) == Prior(before, shapes[i])
  {
  }

  function Lost(k: Key, relations: Relations): Shape {
    if k.child in relations then Detached(k) else Dropped(k)
  }

  lemma NeverQueued(changes: seq<Change>, live: seq<Change>, stable: set<Key>)
    requires Entered(live, stable) && forall c :: c in changes ==> Effective(stable, c.shape)
    ensures forall c :: c in changes ==> !AlreadyLive(live, c.shape)
  {
  }

  predicate AlreadyLive(live: seq<Change>, shape: Shape) {
    exists c :: c in live && c.shape == shape
  }

  lemma ShapeMembers(changes: seq<Change>)
    ensures forall c :: c in changes ==> c.shape in ShapesOf(changes)
  {
    forall c | c in changes
      ensures c.shape in ShapesOf(changes)
    {
      var i :| 0 <= i < |changes| && changes[i] == c;
      assert ShapesOf(changes)[i] == c.shape;
    }
  }

  lemma CandidatesEffective(changes: seq<Change>, stable: set<Key>, v: View)
    requires Lists(ShapesOf(changes), ShapeSet(stable, v))
    ensures forall c :: c in changes ==> Effective(stable, c.shape)
  {
    ShapeMembers(changes);
  }

  lemma EnteredKept(was: seq<Change>, live: seq<Change>, edges: set<Key>, v: View)
    requires Entered(was, edges) && forall c :: c in live ==> c in was
    ensures Entered(live, edges)
  {
  }

  /** What stays queued and what is newly queued both agree with the new snapshot. */
  lemma EnteredAll(live: seq<Change>, changes: seq<Change>, ready: seq<Change>, stable: set<Key>, v: View)
    requires forall c :: c in live ==> Holds(c.shape, v)
    requires ShapesOf(ready) == ShapesOf(changes) && Lists(ShapesOf(changes), ShapeSet(stable, v))
    ensures Entered(live + ready, v.edges)
  {
    ShapeMembers(ready);
  }

  lemma CountsNow(t: Topology, v: View, changes: seq<Change>, before: map<Shape, Change>, trimmed: map<Shape, Change>,
                  after: map<Shape, Change>, polls: nat)
    requires Sound(t) && polls >= 1 && t.initialized && Counts(before, t, polls)
    requires Lists(ShapesOf(changes), ShapeSet(t.stable, v))
    requires forall s :: s in trimmed <==> s in before && s in ShapesOf(changes)
    requires forall s :: s in trimmed ==> trimmed[s] == before[s]
    requires Tallies(trimmed, ShapesOf(changes), after, polls)
    ensures Counts(after, See(t, v, polls), polls)
  {
    hide Counts, ShapeSet, Bump;
    CountsAfter(t, v, before, after, polls);
  }

  lemma ReadyNow(t: Topology, v: View, changes: seq<Change>, ready: seq<Change>, before: map<Shape, Change>,
                 trimmed: map<Shape, Change>, polls: nat)
    requires Sound(t) && polls >= 1 && Counts(before, t, polls)
    requires Lists(ShapesOf(changes), ShapeSet(t.stable, v))
    requires forall s :: s in trimmed <==> s in before && s in ShapesOf(changes)
    requires forall s :: s in trimmed ==> trimmed[s] == before[s]
    requires ReadyTo(ShapesOf(changes), |changes|, ShapesOf(ready), trimmed, polls)
    ensures ready != [] && |ready| == |changes| <==> Emits((t.views + [v])[t.mark..], t.stable, polls)
    ensures |ready| == |changes| ==> ShapesOf(ready) == ShapesOf(changes)
  {
    hide Counts, ShapeSet, Emits;
    var all := ShapesOf(changes);
    ReadyIffEmits(t, v, before, polls);
    NoneListed(all, ShapeSet(t.stable, v));
    assert all[..|all|] == all;
    assert forall s :: s in all ==> Prior(trimmed, s) == Prior(before, s);
    assert (forall j :: 0 <= j < |all| ==> polls <= Prior(trimmed, all[j]) + 1) <==>
      forall s :: s in ShapeSet(t.stable, v) ==> polls <= Prior(before, s) + 1;
  }

  /** A watcher's whole run, from a restored or a fresh baseline: the stable edges are those
      the topology of the polls gives, each action emits exactly what it says there, every
      event had held in the last `confirm_polls` accepted observations, and replaying the
      events from any moment on gives the stable edges. */
  method Watch(confirmPolls: int, edges: Option<map<Key, Edge>>, actions: seq<Action>)
    returns (batches: seq<seq<Shape>>, stable: set<Key>)
    requires edges.Some? ==> Keyed(edges.value)
    ensures var polls := if confirmPolls < 1 then 1 else confirmPolls;
      var start := if edges.Some? then Some(edges.value.Keys) else None;
      stable == Follow(start, actions, polls).stable && Replayed(start, actions, batches, polls) &&
      Confirmed(start, actions, batches, polls) && Sourced(start, actions, batches, polls, stable)
  {
    hide Watcher.Valid, Step, Follow, Emission, Lists, Confirmed, Sourced;
    var w := new Watcher(confirmPolls, edges);
    ghost var start := if edges.Some? then Some(edges.value.Keys) else None;
    batches := [];
    FollowNone(start, actions, w.polls);
    for i := 0 to |actions|
      invariant fresh(w) && w.Valid() && w.polls == (if confirmPolls < 1 then 1 else confirmPolls)
      invariant w.t == Follow(start, actions[..i], w.polls) && |batches| == i
      invariant forall k :: 0 <= k < i ==> Lists(batches[k], Emission(Follow(start, actions[..k], w.polls), actions[k], w.polls))
    {
      FollowOne(start, actions, i, w.polls);
      var batch := Perform(w, actions[i]);
      batches := batches + [batch];
    }
    assert actions[..|actions|] == actions;
    stable := w.snapshot.Keys;
    w.Stable();
    AllConfirmed(start, actions, batches, w.polls);
    AllSourced(start, actions, batches, w.polls);
  }

  lemma FollowNone(start: Option<set<Key>>, actions: seq<Action>, polls: nat)
    requires polls >= 1
    ensures Follow(start, actions[..0], polls) == Initial(start)
  {
  }

  method Perform(w: Watcher, a: Action) returns (batch: seq<Shape>)
    requires w.Valid()
    modifies w
    ensures w.Valid() && w.t == Step(old(w.t), a, w.polls) && Lists(batch, Emission(old(w.t), a, w.polls))
  {
    w.Stable();
    hide Watcher.Valid, Step, Emission, Lists;
    match a {
      case Poll(o, relations) =>
        var ready := w.ComparePartitions(o, relations);
        batch := ShapesOf(ready);
      case Settled(shapes) =>
        StillStep(w.t, a, w.polls);
        w.Settle(shapes);
        batch := [];
      case Forgotten(name) =>
        StillStep(w.t, a, w.polls);
        w.Forget(name);
        batch := [];
    }
  }

  lemma StillStep(t: Topology, a: Action, polls: nat)
    requires Sound(t) && polls >= 1 && !a.Poll?
    ensures Step(t, a, polls) == t && Lists([], Emission(t, a, polls))
  {
  }

  ghost predicate Confirmed(start: Option<set<Key>>, actions: seq<Action>, batches: seq<seq<Shape>>, polls: nat)
    requires polls >= 1 && |batches| == |actions|
  {
    forall i, s :: 0 <= i < |actions| && s in batches[i] ==> Streak(s, Follow(start, actions[..i + 1], polls).views, polls)
  }

  ghost predicate Sourced(start: Option<set<Key>>, actions: seq<Action>, batches: seq<seq<Shape>>, polls: nat, stable: set<Key>)
    requires polls >= 1 && |batches| == |actions|
  {
    forall i :: 0 <= i <= |actions| && Follow(start, actions[..i], polls).initialized ==>
      Replay(Follow(start, actions[..i], polls).stable, Join(batches[i..])) == stable
  }

  lemma AllConfirmed(start: Option<set<Key>>, actions: seq<Action>, batches: seq<seq<Shape>>, polls: nat)
    requires polls >= 1 && Replayed(start, actions, batches, polls)
    ensures Confirmed(start, actions, batches, polls)
  {
    hide Follow, Streak, Emission;
    forall i, s | 0 <= i < |actions| && s in batches[i]
      ensures Streak(s, Follow(start, actions[..i + 1], polls).views, polls)
    {
      EventsConfirmed(start, actions, polls, i, s);
    }
  }

  lemma AllSourced(start: Option<set<Key>>, actions: seq<Action>, batches: seq<seq<Shape>>, polls: nat)
    requires polls >= 1 && Replayed(start, actions, batches, polls)
    ensures Sourced(start, actions, batches, polls, Follow(start, actions, polls).stable)
  {
    hide Follow, Replay, Join, Replayed;
    assert |batches| == |actions| by { SameLength(start, actions, batches, polls); }
    forall i | 0 <= i <= |actions| && Follow(start, actions[..i], polls).initialized
      ensures Replay(Follow(start, actions[..i], polls).stable, Join(batches[i..])) == Follow(start, actions, polls).stable
    {
      EventsReplay(start, actions, batches, polls, i, |actions|);
      assert batches[i..|actions|] == batches[i..] && actions[..|actions|] == actions;
    }
  }

  lemma SameLength(start: Option<set<Key>>, actions: seq<Action>, batches: seq<seq<Shape>>, polls: nat)
    requires polls >= 1 && Replayed(start, actions, batches, polls)
    ensures |batches| == |actions|
  {
  }
}
