/** The relation watcher of src/cdc_flight/catalog_lifecycle.py as it runs: one queue, one table
    of streaks and one catalog for all relations, updated poll by poll.  Every step about one
    relation is proved to do to it what `CatalogTracks` says and to leave every other alone. */
module CatalogWatcher {
  import opened Options
  import opened Sequences
  import opened CatalogTracks

  // ---------------------------------------------------------------------------
  // One relation among all
  // ---------------------------------------------------------------------------

  /** The changes of one relation, in order. */
  function Of(changes: seq<Change>, n: Name): seq<Change> {
    Keep(changes, (c: Change) => c.name == n)
  }

  /** What a watcher holds; `added` is what the action under way has queued. */
  datatype Look = Look(
    live: seq<Change>,
    unconfirmed: map<Name, Change>,
    known: map<Name, Relation>,
    gone: set<Name>,
    replicated: set<Name>,
    added: seq<Change>)

  ghost function At(l: Look, n: Name): Track {
    Track(if n in l.known then Some(l.known[n]) else None, n in l.gone, n in l.replicated,
      if n in l.unconfirmed then Some(l.unconfirmed[n]) else None, Of(l.live, n))
  }

  /** A step about `name`: that relation as given, every other as it was. */
  ghost predicate Becomes(a: Look, b: Look, name: Name, step: Step) {
    At(b, name) == step.track && (forall n :: n != name ==> At(b, n) == At(a, n)) && b.added == a.added + step.added
  }

  lemma BecomesTwice(a: Look, b: Look, c: Look, name: Name, first: Step, second: Step)
    requires Becomes(a, b, name, first) && Becomes(b, c, name, second)
    ensures Becomes(a, c, name, Step(second.track, first.added + second.added))
  {
    hide At;
  }

  lemma Unmoved(a: Look, name: Name)
    ensures Becomes(a, a, name, Step(At(a, name), []))
  {
    assert a.added + [] == a.added;
  }

  lemma OfOne(changes: seq<Change>, c: Change, n: Name)
    ensures Of(changes + [c], n) == Of(changes, n) + if c.name == n then [c] else []
  {
    assert (changes + [c])[..|changes|] == changes;
  }

  lemma {:induction false} OfKept(changes: seq<Change>, p: Change -> bool, n: Name)
    ensures Of(Keep(changes, p), n) == Keep(Of(changes, n), p)
  {
    hide Keep, Of;
    if changes == [] {
      NothingKept(p, n);
    } else {
      var front, last := changes[..|changes| - 1], changes[|changes| - 1];
      OfKept(front, p, n);
      assert changes == front + [last];
      KeepOneMore(front, last, p);
      OfOne(front, last, n);
      if p(last) { OfOne(Keep(front, p), last, n); }
      if last.name == n { KeepOneMore(Of(front, n), last, p); }
      assert Keep(front, p) + [] == Keep(front, p) && Of(front, n) + [] == Of(front, n);
      assert Keep(Of(front, n), p) + [] == Keep(Of(front, n), p);
    }
  }

  lemma NothingKept(p: Change -> bool, n: Name)
    ensures Keep([], p) == [] && Of([], n) == []
  {
  }

  lemma KeepOneMore(changes: seq<Change>, c: Change, p: Change -> bool)
    ensures Keep(changes + [c], p) == Keep(changes, p) + if p(c) then [c] else []
  {
    assert (changes + [c])[..|changes|] == changes;
  }

  lemma {:induction false} KeepAgrees(changes: seq<Change>, p: Change -> bool, q: Change -> bool)
    requires forall c :: c in changes ==> p(c) == q(c)
    ensures Keep(changes, p) == Keep(changes, q)
  {
    if changes != [] { KeepAgrees(changes[..|changes| - 1], p, q); }
  }

  lemma {:induction false} KeepsAll(changes: seq<Change>, p: Change -> bool)
    requires forall c :: c in changes ==> p(c)
    ensures Keep(changes, p) == changes
  {
    if changes != [] {
      KeepsAll(changes[..|changes| - 1], p);
      assert changes == changes[..|changes| - 1] + [changes[|changes| - 1]];
    }
  }

  /** The queue without one kind of one relation. */
  function Superseded(live: seq<Change>, name: Name, kind: Kind): seq<Change> {
    Keep(live, (c: Change) => !(c.name == name && c.kind == kind))
  }

  lemma OfSuperseded(live: seq<Change>, name: Name, kind: Kind, n: Name)
    ensures Of(Superseded(live, name, kind), n) == if n == name then Without(Of(live, n), kind) else Of(live, n)
  {
    var p := (c: Change) => !(c.name == name && c.kind == kind);
    OfKept(live, p, n);
    if n == name { KeepAgrees(Of(live, n), p, (c: Change) => c.kind != kind); } else { KeepsAll(Of(live, n), p); }
  }

  /** Refreshing the recreates of one relation. */
  function RefreshedIn(live: seq<Change>, name: Name, current: Relation, lsn: int): (r: seq<Change>)
    ensures |r| == |live|
    ensures forall i :: 0 <= i < |live| ==> r[i] == if live[i].name == name then Refresh(live[i], current, lsn) else live[i]
  {
    seq(|live|, i requires 0 <= i < |live| => if live[i].name == name then Refresh(live[i], current, lsn) else live[i])
  }

  lemma {:induction false} OfRefreshed(live: seq<Change>, name: Name, current: Relation, lsn: int, n: Name)
    ensures Of(RefreshedIn(live, name, current, lsn), n) ==
      if n == name then Refreshed(Of(live, n), current, lsn) else Of(live, n)
  {
    if live != [] {
      var front, last := live[..|live| - 1], live[|live| - 1];
      OfRefreshed(front, name, current, lsn, n);
      var r, one := RefreshedIn(front, name, current, lsn), if last.name == name then Refresh(last, current, lsn) else last;
      assert RefreshedIn(live, name, current, lsn) == r + [one];
      assert live == front + [last];
      hide Of, RefreshedIn, Refreshed;
      OfOne(r, one, n);
      OfOne(front, last, n);
      if n == name && last.name == name { RefreshedOne(Of(front, n), last, current, lsn); }
    }
  }

  lemma RefreshedOne(queue: seq<Change>, c: Change, current: Relation, lsn: int)
    ensures Refreshed(queue + [c], current, lsn) == Refreshed(queue, current, lsn) + [Refresh(c, current, lsn)]
  {
  }

  class Watcher {
    const polls: nat
    const included: set<Name>
    const unrelatable: set<Name>
    const autoDiscover: bool
    var known: map<Name, Relation>
    var gone: set<Name>
    var replicated: set<Name>
    var unconfirmed: map<Name, Change>
    var live: seq<Change>
    /** What the action under way has queued. */
    var added: seq<Change>

    constructor (confirmPolls: int, known: map<Name, Relation>, replicated: set<Name>, gone: set<Name>,
                 included: set<Name>, unrelatable: set<Name>, autoDiscover: bool)
      ensures polls == (if confirmPolls < 1 then 1 else confirmPolls) && this.included == included
      ensures this.unrelatable == unrelatable && this.autoDiscover == autoDiscover
      ensures Now() == Look([], map[], known, gone, replicated, [])
    {
      polls := if confirmPolls < 1 then 1 else confirmPolls;
      this.known, this.replicated, this.gone := known, replicated, gone;
      this.included, this.unrelatable, this.autoDiscover := included, unrelatable, autoDiscover;
      unconfirmed, live, added := map[], [], [];
    }

    ghost function Now(): Look
      reads this
    {
      Look(live, unconfirmed, known, gone, replicated, added)
    }

    function ScopeOf(name: Name): Scope {
      Scope(name, polls, name in included, name in unrelatable, autoDiscover)
    }

    /** Streaks are filed under the relation they are about. */
    ghost predicate Valid()
      reads this
    {
      forall n :: n in unconfirmed ==> unconfirmed[n].name == n
    }

    /** Cancel queued and half-confirmed changes of one kind for a relation. */
    method Supersede(name: Name, kind: Kind)
      requires Valid()
      modifies this`live, this`unconfirmed
      ensures Valid() && Becomes(old(Now()), Now(), name, Step(Cancelled(At(old(Now()), name), kind), []))
    {
      hide Of, Keep, Superseded;
      forall n
        ensures Of(Superseded(live, name, kind), n) == if n == name then Without(Of(live, n), kind) else Of(live, n)
      {
        OfSuperseded(live, name, kind, n);
      }
      live := Superseded(live, name, kind);
      if name in unconfirmed && unconfirmed[name].kind == kind { unconfirmed := unconfirmed - {name}; }
    }

    /** Carry one confirmation through a streak of polls that agree. */
    method Confirm(change: Change) returns (confirmed: seq<Change>)
      requires Valid()
      modifies this`unconfirmed
      ensures Valid() && (confirmed != [] ==> confirmed[0].name == change.name)
      ensures var step := Confirming(At(old(Now()), change.name), change, polls);
        confirmed == step.added && Becomes(old(Now()), Now(), change.name, Step(step.track, []))
    {
      hide Of;
      var tracked := change;
      if change.name in unconfirmed && ShapeOf(unconfirmed[change.name]) == ShapeOf(change) {
        var streak := unconfirmed[change.name];
        tracked := streak.(confirmations := streak.confirmations + 1, lsn := change.lsn);
      }
      if tracked.confirmations < polls {
        unconfirmed := unconfirmed[change.name := tracked];
        return [];
      }
      unconfirmed := unconfirmed - {change.name};
      return [tracked];
    }

    /** Put a change into the queue. */
    method Enqueue(change: Change)
      modifies this`live, this`added
      ensures Becomes(old(Now()), Now(), change.name, Queueing(At(old(Now()), change.name), change))
    {
      forall n
        ensures Of(live + [change], n) == Of(live, n) + if change.name == n then [change] else []
      {
        OfOne(live, change, n);
      }
      hide Of;
      live, added := live + [change], added + [change];
      assert forall n :: Of(old(live), n) + [] == Of(old(live), n);
    }

    method Learn(name: Name, relation: Relation)
      modifies this`known
      ensures Becomes(old(Now()), Now(), name, Step(At(old(Now()), name).(known := Some(relation)), []))
    {
      hide Of;
      known := known[name := relation];
    }

    /** Confirm a change; once confirmed, queue it and learn the relation. */
    method Conclude(change: Change, learn: Option<Relation>)
      requires Valid()
      modifies this`unconfirmed, this`live, this`added, this`known
      ensures Valid() && Becomes(old(Now()), Now(), change.name, Concluding(At(old(Now()), change.name), change, polls, learn))
    {
      hide At, Of;
      var name := change.name;
      var confirmed := Confirm(change);
      if confirmed == [] { return; }
      ghost var mid := Now();
      if learn.Some? {
        Learn(name, learn.value);
        BecomesTwice(old(Now()), mid, Now(), name, Step(At(mid, name), []), Step(At(Now(), name), []));
      }
      mid := Now();
      Enqueue(confirmed[0]);
      BecomesTwice(old(Now()), mid, Now(), name, Step(At(mid, name), []), Queueing(At(mid, name), confirmed[0]));
    }

    /** The newest token of a recreate already queued. */
    method RefreshRecreate(name: Name, current: Relation, lsn: int)
      modifies this`live
      ensures var t := At(old(Now()), name);
        Becomes(old(Now()), Now(), name, Step(t.(queue := Refreshed(t.queue, current, lsn)), []))
    {
      forall n
        ensures Of(RefreshedIn(live, name, current, lsn), n) == if n == name then Refreshed(Of(live, n), current, lsn) else Of(live, n)
      {
        OfRefreshed(live, name, current, lsn, n);
      }
      hide Of;
      live := RefreshedIn(live, name, current, lsn);
    }

    /** A streak about a relation that turns out unchanged describes no world any more. */
    method ForgetStreak(name: Name)
      requires Valid()
      modifies this`unconfirmed
      ensures Valid() && Becomes(old(Now()), Now(), name, Step(At(old(Now()), name).(streak := None), []))
    {
      hide Of;
      unconfirmed := unconfirmed - {name};
    }

    /** A queued recreate of the lifecycle seen is renewed, one of another is cancelled. */
    method RenewRecreate(name: Name, current: Relation, lsn: int)
      requires Valid()
      modifies this`live, this`unconfirmed, this`known
      ensures Valid() && Becomes(old(Now()), Now(), name, Step(Renewed(At(old(Now()), name), current, lsn), []))
    {
      var mine := Of(live, name);
      hide Of;
      if exists c :: c in mine && Matches(c, current) {
        RefreshRecreate(name, current, lsn);
        ghost var mid := Now();
        Learn(name, current);
        BecomesTwice(old(Now()), mid, Now(), name, Step(At(mid, name), []), Step(At(Now(), name), []));
      } else if exists c :: c in mine && Outdated(c, current) {
        Supersede(name, Recreated);
      } else {
        Unmoved(Now(), name);
      }
    }

    /** Presence cancels every drop, renews a recreate, and ends a streak about a relation that
        turns out unchanged. */
    method NotePresent(name: Name, current: Relation, previous: Option<Relation>, lsn: int)
      requires Valid() && previous == (if name in known then Some(known[name]) else None)
      modifies this`live, this`unconfirmed, this`known
      ensures Valid() && Becomes(old(Now()), Now(), name, Step(Welcomed(At(old(Now()), name), current, lsn), []))
    {
      ghost var t := At(Now(), name);
      assert previous == t.known;
      hide Of, At, Renewed, Cancelled, Valid;
      RenewRecreate(name, current, lsn);
      ghost var mid := Now();
      Supersede(name, Dropped);
      BecomesTwice(old(Now()), mid, Now(), name, Step(At(mid, name), []), Step(At(Now(), name), []));
      if previous.Some? && SameLifecycle(current.identity, previous.value.identity) && previous.value.columns == current.columns {
        mid := Now();
        ForgetStreak(name);
        BecomesTwice(old(Now()), mid, Now(), name, Step(At(mid, name), []), Step(At(Now(), name), []));
      }
    }

    /** The destination holds this relation again. */
    method Readmit(name: Name)
      modifies this`gone, this`replicated
      ensures Becomes(old(Now()), Now(), name, Step(At(old(Now()), name).(gone := false, replicated := true), []))
    {
      hide Of;
      gone, replicated := gone - {name}, replicated + {name};
    }

    /** A relation with no recorded generation: reconciled as a possible replacement where
        its rows cannot be related, re-admitted for a rebuild where it was gone, recorded
        (and reported when never replicated) where it is wanted, and otherwise left alone. */
    method FirstSight(name: Name, current: Relation, lsn: int)
      requires Valid()
      modifies this`unconfirmed, this`live, this`added, this`known, this`gone, this`replicated
      ensures Valid() && Becomes(old(Now()), Now(), name, FirstSeen(ScopeOf(name), At(old(Now()), name), current, lsn))
    {
      ghost var t := At(Now(), name);
      assert t.gone == (name in gone) && t.replicated == (name in replicated);
      hide Of, At, Concluding;
      if name in unrelatable {
        Conclude(RecreatedChange(name, None, current, lsn), Some(current));
      } else if name in gone {
        Readmit(name);
        LearnAndQueue(name, current, RecreatedChange(name, None, current, lsn), old(Now()));
      } else if name in replicated {
        Learn(name, current);
      } else if name in included || autoDiscover {
        Unmoved(Now(), name);
        LearnAndQueue(name, current, PlainChange(New, name, current, lsn), old(Now()));
      } else {
        Unmoved(Now(), name);
      }
    }

    method LearnAndQueue(name: Name, current: Relation, change: Change, ghost start: Look)
      requires Valid() && change.name == name && Becomes(start, Now(), name, Step(At(Now(), name), []))
      modifies this`live, this`added, this`known
      ensures Valid() && Becomes(start, Now(), name, Queueing(At(old(Now()), name).(known := Some(current)), change))
    {
      hide Of, At;
      ghost var mid := Now();
      Learn(name, current);
      BecomesTwice(start, mid, Now(), name, Step(At(mid, name), []), Step(At(Now(), name), []));
      mid := Now();
      Enqueue(change);
      BecomesTwice(start, mid, Now(), name, Step(At(mid, name), []), Queueing(At(mid, name), change));
    }

    /** A relation with a recorded generation: another lifecycle is a recreate and other
        columns a schema change once enough polls agree; a relation not admitted yet, and a
        change of publication, are reported at once. */
    method Compare(name: Name, current: Relation, previous: Relation, replaced: Option<Relation>, busy: bool, lsn: int)
      requires Valid()
      modifies this`unconfirmed, this`live, this`added, this`known
      ensures Valid()
      ensures Becomes(old(Now()), Now(), name, Compared(ScopeOf(name), At(old(Now()), name), current, previous, replaced, busy, lsn))
    {
      var mine := Of(live, name);
      ghost var t := At(Now(), name);
      assert mine == t.queue && t.replicated == (name in replicated);
      hide Of, At, Concluding, Has;
      if !SameLifecycle(current.identity, previous.identity) {
        if busy { Unmoved(Now(), name); } else { Conclude(RecreatedChange(name, replaced, current, lsn), Some(current)); }
      } else if autoDiscover && name !in replicated && current.admission.NotReady? && !Has(mine, New) {
        Enqueue(PlainChange(New, name, current, lsn));
      } else if previous.columns != current.columns {
        if Has(mine, Schema) { Unmoved(Now(), name); } else { Conclude(SchemaChange(name, previous, current, lsn), Some(current)); }
      } else {
        ComparePublication(name, current, previous, lsn);
      }
    }

    /** The same lifecycle and columns: learn the rest, and report a change of publication. */
    method ComparePublication(name: Name, current: Relation, previous: Relation, lsn: int)
      requires Valid()
      modifies this`live, this`added, this`known
      ensures Valid()
      ensures var t := At(old(Now()), name);
        var learned := if current != previous then t.(known := Some(current)) else t;
        Becomes(old(Now()), Now(), name,
          if current.published == previous.published then Step(learned, [])
          else Queueing(learned, PlainChange(if current.published then Republished else Unpublished, name, current, lsn)))
    {
      hide Of, At;
      Unmoved(Now(), name);
      if current != previous { Learn(name, current); }
      if current.published != previous.published {
        ghost var mid := Now();
        var change := PlainChange(if current.published then Republished else Unpublished, name, current, lsn);
        Enqueue(change);
        BecomesTwice(old(Now()), mid, Now(), name, Step(At(mid, name), []), Queueing(At(mid, name), change));
      }
    }

    /** A poll that can see the relation's schema found it. */
    method VisitPresent(name: Name, seen: Relation, partitionFenced: bool, lsn: int)
      requires Valid()
      modifies this
      ensures Valid() && Becomes(old(Now()), Now(), name, Presence(ScopeOf(name), At(old(Now()), name), seen, partitionFenced, lsn))
    {
      var previous := if name in known then Some(known[name]) else None;
      ghost var t := At(Now(), name);
      assert t.known == previous && t.replicated == (name in replicated);
      if seen.partition && name !in included && name !in replicated && previous.None? {
        // A child partition is no discovery target.
        Unmoved(Now(), name);
        return;
      }
      var current := if previous.Some? then seen.(admission := previous.value.admission) else seen;
      var retained := Retained(Of(live, name), previous);
      assert retained == Retained(t.queue, t.known);
      hide At, Retained, Welcomed, FirstSeen, Compared, HasFenced;
      NotePresent(name, current, previous, lsn);
      ghost var mid := Now();
      var mine := Of(live, name);
      QueueAt(mid, name);
      hide Of;
      var busy := partitionFenced || HasFenced(mine);
      if previous.None? {
        FirstSight(name, current, lsn);
        BecomesTwice(old(Now()), mid, Now(), name, Step(At(mid, name), []), FirstSeen(ScopeOf(name), At(mid, name), current, lsn));
      } else {
        var replaced := if retained.Some? then retained else previous;
        Compare(name, current, previous.value, replaced, busy, lsn);
        BecomesTwice(old(Now()), mid, Now(), name, Step(At(mid, name), []),
          Compared(ScopeOf(name), At(mid, name), current, previous.value, replaced, busy, lsn));
      }
    }

    /** A poll that can see the relation's schema did not find it. */
    method VisitAbsent(name: Name, partitionFenced: bool, lsn: int)
      requires Valid()
      modifies this
      ensures Valid() && Becomes(old(Now()), Now(), name, Absence(ScopeOf(name), At(old(Now()), name), partitionFenced, lsn))
    {
      var previous := if name in known then Some(known[name]) else None;
      ghost var t := At(Now(), name);
      assert t.known == previous && t.replicated == (name in replicated) && t.gone == (name in gone);
      var retained := Retained(Of(live, name), previous);
      assert retained == Retained(t.queue, t.known);
      hide At, Retained, Unsettled, Concluding, HasFenced;
      CancelRecreate(name);
      ghost var mid := Now();
      var mine := Of(live, name);
      QueueAt(mid, name);
      hide Of;
      if partitionFenced || HasFenced(mine) || (previous.None? && (name in gone || name !in replicated)) { return; }
      var image := if previous.None? then None else if retained.Some? then retained else previous;
      if image.Some? {
        Learn(name, image.value);
        BecomesTwice(old(Now()), mid, Now(), name, Step(At(mid, name), []), Step(At(Now(), name), []));
        mid := Now();
      }
      Conclude(DroppedChange(name, image, lsn), None);
      BecomesTwice(old(Now()), mid, Now(), name, Step(At(mid, name), []),
        Concluding(At(mid, name), DroppedChange(name, image, lsn), polls, None));
    }

    /** With no recreate queued, one that was still being confirmed describes nothing. */
    method CancelRecreate(name: Name)
      requires Valid()
      modifies this`live, this`unconfirmed
      ensures Valid() && Becomes(old(Now()), Now(), name, Step(Unsettled(At(old(Now()), name)), []))
    {
      var mine := Of(live, name);
      QueueAt(Now(), name);
      hide At, Of;
      if Has(mine, Recreated) { Unmoved(Now(), name); } else { Supersede(name, Recreated); }
    }

    /** One poll: visit every interesting relation whose schema is in scope and visible. What it
        does to each relation, and what it queues for it, is what `CatalogTracks` says. */
    method Poll(observed: map<Name, Relation>, visible: set<Name>, partitionFenced: set<Name>, lsn: int)
      returns (queued: seq<Change>)
      requires Valid()
      modifies this
      ensures Valid() && Acts(old(Now()), Now().(added := queued), Polls(observed, visible, partitionFenced, lsn), this)
    {
      added := [];
      ghost var a, action := Now(), Polls(observed, visible, partitionFenced, lsn);
      var todo := InterestingNames(observed) * visible;
      InterestingTells(a, action, todo);
      ActedStart(a, action, this, todo);
      hide At, Acted, Of, Act, Becomes;
      while todo != {}
        invariant Valid() && todo <= visible && Acted(a, Now(), action, this, todo)
        invariant forall n :: n in todo ==> Interesting(ScopeOf(n), At(a, n), SightOf(action, n))
      {
        var name :| name in todo;
        ghost var b := Now();
        AsBefore(a, b, action, this, todo, name);
        if name in observed {
          VisitPresent(name, observed[name], name in partitionFenced, lsn);
        } else {
          VisitAbsent(name, name in partitionFenced, lsn);
        }
        ActedOne(a, b, Now(), action, this, todo, name);
        todo := todo - {name};
      }
      ActedEnd(old(Now()), a, Now(), action, this);
      queued := added;
    }

    function InterestingNames(observed: map<Name, Relation>): set<Name>
      reads this
    {
      var destructive := set c | c in live && Destructive(c.kind) :: c.name;
      included + replicated + gone + known.Keys + destructive + if autoDiscover then observed.Keys else {}
    }

    lemma InterestingTells(a: Look, action: Action, todo: set<Name>)
      requires a == Now() && action.Polls? && todo == InterestingNames(action.observed) * action.visible
      ensures forall n :: n in todo <==> n in action.visible && Interesting(ScopeOf(n), At(a, n), SightOf(action, n))
    {
      forall n
        ensures (exists c :: c in live && Destructive(c.kind) && c.name == n) <==> Has(Of(live, n), Dropped) || Has(Of(live, n), Recreated)
      {
        if c :| c in live && Destructive(c.kind) && c.name == n { assert c in Of(live, n); }
      }
    }

    /** A plan committed, or refused for good, these changes. Unless a later poll already
        showed more, the relation a settled schema change carries is now the known one. */
    method Settle(changes: seq<Change>, advanced: bool)
      requires Valid()
      modifies this`live, this`known, this`added
      ensures Valid() && Acts(old(Now()), Now(), Settles(changes, advanced), this)
    {
      added := [];
      live := Except(live, changes);
      if !advanced {
        for i := 0 to |changes|
          invariant live == Except(old(live), changes) && added == [] && Adopting(old(known), known, changes[..i])
        {
          assert changes[..i + 1][..i] == changes[..i];
          var c := changes[i];
          if c.kind.Schema? && c.newRelation.Some? { known := known[c.name := c.newRelation.value]; }
        }
        assert changes[..|changes|] == changes;
      }
      SettledActs(old(Now()), Now(), changes, advanced, this);
    }

    /** The relation is discharged: nothing about it stays. */
    method Forget(name: Name)
      requires Valid()
      modifies this`live, this`unconfirmed, this`known, this`replicated, this`added
      ensures Valid() && Acts(old(Now()), Now(), Forgets(name), this)
    {
      added := [];
      live := OthersOf(live, name);
      unconfirmed, known, replicated := unconfirmed - {name}, known - {name}, replicated - {name};
      hide Acts;
      ForgotActs(old(Now()), Now(), name, this);
    }

    /** A plan found the replacement itself replaced: the recreate it was about to apply
        gives way to one for the newest generation, still fenced where the first was. */
    method ReplaceRecreate(change: Change, identity: Identity)
      requires Valid()
      modifies this`live, this`known, this`added, this`unconfirmed
      ensures Valid() && Acts(old(Now()), Now(), Replaces(change, identity), this)
    {
      added := [];
      var name, mine := change.name, Of(live, change.name);
      ghost var start := Now();
      QueueAt(start, name);
      if change !in mine || !change.kind.Recreated? || name !in known {
        Idle(old(Now()), start, Replaces(change, identity), this);
        return;
      }
      assert change in mine;
      var next := Replacement(Track(Some(known[name]), false, false, None, mine), change, identity);
      var relation := known[name].(identity := identity);
      assert At(start, name).known == Some(known[name]) && next == Replacement(At(start, name), change, identity);
      hide Of, At, Retained, Cancelled;
      Supersede(name, Recreated);
      LearnAndQueue(name, relation, next, start);
      ReplacedAct(old(Now()), start, Now(), change, identity, this);
    }

    /** Other tables now have destination tables. */
    method ObserveReplicated(names: set<Name>)
      requires Valid()
      modifies this`replicated, this`added
      ensures Valid() && Acts(old(Now()), Now(), Replicates(names), this)
    {
      added := [];
      replicated := replicated + names;
    }
  }

  /** One action on a watcher: every relation becomes what `CatalogTracks` says, and what is
      queued for it is what that says too. */
  ghost predicate Acts(a: Look, b: Look, action: Action, w: Watcher) {
    forall n :: At(b, n) == Act(w.ScopeOf(n), At(a, n), action).track && Of(b.added, n) == Act(w.ScopeOf(n), At(a, n), action).added
  }

  /** Part way through a poll, with `todo` left to visit. */
  ghost predicate Acted(a: Look, b: Look, action: Action, w: Watcher, todo: set<Name>) {
    forall n ::
      if n in todo then At(b, n) == At(a, n) && Of(b.added, n) == []
      else At(b, n) == Act(w.ScopeOf(n), At(a, n), action).track && Of(b.added, n) == Act(w.ScopeOf(n), At(a, n), action).added
  }

  lemma ActedStart(a: Look, action: Action, w: Watcher, todo: set<Name>)
    requires action.Polls? && a.added == []
    requires forall n :: n in todo <==> n in action.visible && Interesting(w.ScopeOf(n), At(a, n), SightOf(action, n))
    ensures Acted(a, a, action, w, todo)
  {
    hide At;
  }

  lemma AsBefore(a: Look, b: Look, action: Action, w: Watcher, todo: set<Name>, name: Name)
    requires Acted(a, b, action, w, todo) && name in todo
    ensures At(b, name) == At(a, name)
  {
    hide At;
  }

  lemma ActedOne(a: Look, b: Look, c: Look, action: Action, w: Watcher, todo: set<Name>, name: Name)
    requires Acted(a, b, action, w, todo) && name in todo && action.Polls? && name in action.visible
    requires name in b.unconfirmed ==> b.unconfirmed[name].name == name
    requires Becomes(b, c, name, Visit(w.ScopeOf(name), At(b, name), SightOf(action, name)))
    ensures Acted(a, c, action, w, todo - {name})
  {
    var step := Visit(w.ScopeOf(name), At(b, name), SightOf(action, name));
    AddedTells(w.ScopeOf(name), At(b, name), SightOf(action, name));
    assert Act(w.ScopeOf(name), At(b, name), action) == step;
    hide Visit, At, Of, Act;
    assert At(b, name) == At(a, name) && Of(b.added, name) == [] && [] + step.added == step.added;
    forall n
      ensures if n in todo - {name} then At(c, n) == At(a, n) && Of(c.added, n) == []
              else At(c, n) == Act(w.ScopeOf(n), At(a, n), action).track && Of(c.added, n) == Act(w.ScopeOf(n), At(a, n), action).added
    {
      OfNamed(b.added, step.added, name, n);
      assert Of(b.added, n) + [] == Of(b.added, n);
    }
  }

  lemma {:induction false} OfJoin(a: seq<Change>, b: seq<Change>, n: Name)
    ensures Of(a + b, n) == Of(a, n) + Of(b, n)
    decreases |b|
  {
    if b == [] {
      assert a + b == a;
    } else {
      var front, last := b[..|b| - 1], b[|b| - 1];
      assert a + b == a + front + [last] && b == front + [last];
      OfJoin(a, front, n);
      hide Of;
      OfOne(a + front, last, n);
      OfOne(front, last, n);
    }
  }

  lemma OfNamed(a: seq<Change>, b: seq<Change>, name: Name, n: Name)
    requires forall c :: c in b ==> c.name == name
    ensures Of(a + b, n) == Of(a, n) + if n == name then b else []
  {
    OfJoin(a, b, n);
    if n == name { KeepsAll(b, (c: Change) => c.name == n); } else { NoneKept(b, (c: Change) => c.name == n); }
  }

  /** A step about one relation, for an action that concerns no other. */
  lemma BecomesActs(was: Look, a: Look, b: Look, name: Name, step: Step, action: Action, w: Watcher)
    requires a == was.(added := []) && Becomes(a, b, name, step) && step == Act(w.ScopeOf(name), At(was, name), action)
    requires forall n :: n != name ==> Act(w.ScopeOf(n), At(was, n), action) == Step(At(was, n), [])
    requires forall c :: c in step.added ==> c.name == name
    ensures Acts(was, b, action, w)
  {
    hide Act, At, Of;
    assert [] + step.added == step.added;
    forall n
      ensures At(b, n) == Act(w.ScopeOf(n), At(was, n), action).track && Of(b.added, n) == Act(w.ScopeOf(n), At(was, n), action).added
    {
      SameAt(was, [], n);
      OfNamed([], step.added, name, n);
      NothingKept((c: Change) => true, n);
    }
  }

  lemma ActedEnd(was: Look, a: Look, b: Look, action: Action, w: Watcher)
    requires Acted(a, b, action, w, {}) && a == was.(added := [])
    ensures Acts(was, b, action, w)
  {
  }


  lemma QueueAt(l: Look, n: Name)
    ensures At(l, n).queue == Of(l.live, n)
  {
  }

  /** The changes of every other relation. */
  function OthersOf(live: seq<Change>, name: Name): seq<Change> {
    Keep(live, (c: Change) => c.name != name)
  }

  lemma OfOthers(live: seq<Change>, name: Name, n: Name)
    ensures Of(OthersOf(live, name), n) == if n == name then [] else Of(live, n)
  {
    var p := (c: Change) => c.name != name;
    OfKept(live, p, n);
    if n == name { NoneKept(Of(live, n), p); } else { KeepsAll(Of(live, n), p); }
  }

  /** What is known once these changes are settled. */
  ghost predicate Adopting(before: map<Name, Relation>, after: map<Name, Relation>, changes: seq<Change>) {
    forall n ::
      (if n in after then Some(after[n]) else None) == Adopted(if n in before then Some(before[n]) else None, changes, n)
  }

  lemma SettledActs(a: Look, b: Look, changes: seq<Change>, advanced: bool, w: Watcher)
    requires b == a.(live := Except(a.live, changes), added := [], known := b.known)
    requires if advanced then b.known == a.known else Adopting(a.known, b.known, changes)
    ensures Acts(a, b, Settles(changes, advanced), w)
  {
    var p := (c: Change) => c !in changes;
    forall n
      ensures Of(b.live, n) == Except(Of(a.live, n), changes) && Of(b.added, n) == []
    {
      OfKept(a.live, p, n);
      NothingKept(p, n);
    }
    hide Of, Keep, Except;
  }

  lemma ForgotActs(a: Look, b: Look, name: Name, w: Watcher)
    requires b == a.(live := OthersOf(a.live, name), added := [], unconfirmed := a.unconfirmed - {name},
                     known := a.known - {name}, replicated := a.replicated - {name})
    ensures Acts(a, b, Forgets(name), w)
  {
    hide Of, Keep, OthersOf;
    forall n
      ensures Of(b.live, n) == (if n == name then [] else Of(a.live, n)) && Of(b.added, n) == []
    {
      OfOthers(a.live, name, n);
      NothingKept((c: Change) => true, n);
    }
  }

  /** An action that does nothing. */
  lemma Idle(was: Look, a: Look, action: Action, w: Watcher)
    requires a == was.(added := []) && forall n :: Act(w.ScopeOf(n), At(was, n), action) == Step(At(was, n), [])
    ensures Acts(was, a, action, w)
  {
  }

  lemma ReplacedAct(was: Look, a: Look, b: Look, change: Change, identity: Identity, w: Watcher)
    requires a == was.(added := []) && At(a, change.name).known.Some? && change in At(a, change.name).queue && change.kind.Recreated?
    requires Becomes(a, b, change.name, Replaced(At(a, change.name), change, identity))
    ensures Acts(was, b, Replaces(change, identity), w)
  {
    assert At(was, change.name) == At(a, change.name);
    hide Becomes, At, Acts, Retained;
    BecomesActs(was, a, b, change.name, Replaced(At(a, change.name), change, identity), Replaces(change, identity), w);
  }

  // ---------------------------------------------------------------------------
  // Every sequence of polls
  // ---------------------------------------------------------------------------

  /** How a watcher starts. */
  datatype Setup = Setup(
    confirmPolls: int,
    known: map<Name, Relation>,
    replicated: set<Name>,
    gone: set<Name>,
    included: set<Name>,
    unrelatable: set<Name>,
    autoDiscover: bool)

  ghost function ScopeIn(s: Setup, n: Name): Scope {
    Scope(n, if s.confirmPolls < 1 then 1 else s.confirmPolls, n in s.included, n in s.unrelatable, s.autoDiscover)
  }

  ghost function StartIn(s: Setup, n: Name): Track {
    Track(if n in s.known then Some(s.known[n]) else None, n in s.gone, n in s.replicated, None, [])
  }

  /** The relation `n` after these actions. */
  ghost function After(s: Setup, actions: seq<Action>, n: Name): Track {
    Follow(ScopeIn(s, n), StartIn(s, n), actions)
  }

  /** At most one live drop or recreate for each relation. */
  ghost predicate OnePer(live: seq<Change>) {
    forall n :: OneDestructive(Of(live, n))
  }

  /** Every queued drop follows the last polls that could see the relation, all of which found
      it absent. */
  ghost predicate Backed(live: seq<Change>, actions: seq<Action>, polls: nat) {
    forall c :: c in live && c.kind.Dropped? ==> Absent(Presences(actions, c.name), polls)
  }

  /** The drops of `queued` are exactly those in the queue after and not before. */
  ghost predicate NewDrops(before: seq<Change>, after: seq<Change>, queued: seq<Change>) {
    forall n :: Has(Of(queued, n), Dropped) <==> Has(Of(after, n), Dropped) && !Has(Of(before, n), Dropped)
  }

  /** The queue of every relation at one moment. */
  ghost predicate Standing(live: seq<Change>, s: Setup, actions: seq<Action>) {
    forall n :: Of(live, n) == After(s, actions, n).queue
  }

  /** What the next action queues for every relation. */
  ghost predicate Reports(queued: seq<Change>, s: Setup, actions: seq<Action>, a: Action) {
    forall n :: Of(queued, n) == Act(ScopeIn(s, n), After(s, actions, n), a).added
  }

  /** The first `n` actions of a run. */
  ghost predicate Told(queues: seq<seq<Change>>, queued: seq<seq<Change>>, s: Setup, actions: seq<Action>, n: nat) {
    n <= |actions| && |queues| == n + 1 && |queued| == n &&
    (forall i :: 0 <= i <= n ==> Standing(queues[i], s, actions[..i])) &&
    (forall i :: 0 <= i < n ==> Reports(queued[i], s, actions[..i], actions[i]))
  }

  /** And what follows for drops and recreates. */
  ghost predicate Safe(queues: seq<seq<Change>>, queued: seq<seq<Change>>, actions: seq<Action>, polls: nat) {
    |queues| == |actions| + 1 && |queued| == |actions| &&
    (forall i :: 0 <= i <= |actions| ==> OnePer(queues[i]) && Backed(queues[i], actions[..i], polls)) &&
    (forall i, j :: 0 <= i && j == i + 1 && j <= |actions| ==> NewDrops(queues[i], queues[j], queued[i]))
  }

  /** A watcher's whole run from an empty queue: at every moment the queue holds for each
      relation what its own track says, and each action queues what that says.  So at every
      moment every queued drop follows the last `confirm_polls` polls that could see the
      relation, all of which found it absent; no relation has more than one drop or recreate
      queued; and the drops reported are exactly the new ones. */
  method Watch(s: Setup, actions: seq<Action>) returns (queues: seq<seq<Change>>, queued: seq<seq<Change>>)
    ensures Told(queues, queued, s, actions, |actions|)
    ensures Safe(queues, queued, actions, if s.confirmPolls < 1 then 1 else s.confirmPolls)
  {
    var w := new Watcher(s.confirmPolls, s.known, s.replicated, s.gone, s.included, s.unrelatable, s.autoDiscover);
    queues, queued := [[]], [];
    Begins(s, actions, w.Now());
    hide Told, Tracked;
    for i := 0 to |actions|
      invariant fresh(w) && w.Valid() && Configured(w, s)
      invariant Tracked(w.Now(), s, actions[..i]) && Told(queues, queued, s, actions, i)
    {
      ghost var was := w.Now();
      var now := Perform(w, actions[i]);
      ToldMore(queues, queued, s, actions, i, was, w.Now(), now, w);
      queues, queued := queues + [w.live], queued + [now];
    }
    assert actions[..|actions|] == actions;
    AllSafe(queues, queued, s, actions);
  }

  ghost predicate Configured(w: Watcher, s: Setup) {
    forall n :: w.ScopeOf(n) == ScopeIn(s, n)
  }

  /** Every relation is where its own track is. */
  ghost predicate Tracked(l: Look, s: Setup, actions: seq<Action>) {
    forall n :: At(l, n) == After(s, actions, n)
  }

  method Perform(w: Watcher, a: Action) returns (queued: seq<Change>)
    requires w.Valid()
    modifies w
    ensures w.Valid() && Acts(old(w.Now()), w.Now().(added := queued), a, w)
  {
    hide Acts;
    match a {
      case Polls(observed, visible, partitionFenced, lsn) => queued := w.Poll(observed, visible, partitionFenced, lsn);
      case Settles(changes, advanced) => w.Settle(changes, advanced); queued := w.added;
      case Forgets(name) => w.Forget(name); queued := w.added;
      case Replaces(change, identity) => w.ReplaceRecreate(change, identity); queued := w.added;
      case Replicates(names) => w.ObserveReplicated(names); queued := w.added;
    }
  }

  lemma Begins(s: Setup, actions: seq<Action>, l: Look)
    requires l == Look([], map[], s.known, s.gone, s.replicated, [])
    ensures Tracked(l, s, actions[..0]) && Told([[]], [], s, actions, 0)
  {
    assert actions[..0] == [];
  }

  lemma ToldMore(queues: seq<seq<Change>>, queued: seq<seq<Change>>, s: Setup, actions: seq<Action>, i: nat,
                 was: Look, l: Look, now: seq<Change>, w: Watcher)
    requires Told(queues, queued, s, actions, i) && i < |actions| && Configured(w, s)
    requires Tracked(was, s, actions[..i]) && Acts(was, l.(added := now), actions[i], w)
    ensures Tracked(l, s, actions[..i + 1]) && Told(queues + [l.live], queued + [now], s, actions, i + 1)
  {
    hide Act, At, Of, After, Acts, Tracked, Standing, Reports, Configured;
    OneMore(s, actions, i, was, l, now, w);
  }

  lemma OneMore(s: Setup, actions: seq<Action>, i: nat, was: Look, l: Look, now: seq<Change>, w: Watcher)
    requires i < |actions| && Configured(w, s) && Tracked(was, s, actions[..i]) && Acts(was, l.(added := now), actions[i], w)
    ensures Tracked(l, s, actions[..i + 1]) && Standing(l.live, s, actions[..i + 1]) && Reports(now, s, actions[..i], actions[i])
  {
    hide Act, Of, Follow;
    forall n
      ensures At(l, n) == After(s, actions[..i + 1], n) && Of(l.live, n) == After(s, actions[..i + 1], n).queue
      ensures Of(now, n) == Act(ScopeIn(s, n), After(s, actions[..i], n), actions[i]).added
    {
      FollowOne(ScopeIn(s, n), StartIn(s, n), actions, i);
      QueueAt(l, n);
      SameAt(l, now, n);
      hide At;
    }
  }

  lemma SameAt(l: Look, added: seq<Change>, n: Name)
    ensures At(l.(added := added), n) == At(l, n)
  {
  }

  lemma AllSafe(queues: seq<seq<Change>>, queued: seq<seq<Change>>, s: Setup, actions: seq<Action>)
    requires Told(queues, queued, s, actions, |actions|)
    ensures Safe(queues, queued, actions, if s.confirmPolls < 1 then 1 else s.confirmPolls)
  {
    hide Standing, Reports, OnePer, Backed, NewDrops;
    forall i | 0 <= i <= |actions|
      ensures OnePer(queues[i]) && Backed(queues[i], actions[..i], if s.confirmPolls < 1 then 1 else s.confirmPolls)
    {
      SafeAt(queues[i], s, actions[..i]);
    }
    forall i, j | 0 <= i && j == i + 1 && j <= |actions|
      ensures NewDrops(queues[i], queues[j], queued[i])
    {
      DropsAreNew(queues[i], queues[j], queued[i], s, actions, i);
    }
  }

  lemma SafeAt(live: seq<Change>, s: Setup, actions: seq<Action>)
    requires Standing(live, s, actions)
    ensures OnePer(live) && Backed(live, actions, if s.confirmPolls < 1 then 1 else s.confirmPolls)
  {
    forall n
      ensures Sound(ScopeIn(s, n), After(s, actions, n), Presences(actions, n))
    {
      FollowSound(ScopeIn(s, n), StartIn(s, n), actions);
    }
    hide After, Absent, OneDestructive;
    forall c | c in live && c.kind.Dropped?
      ensures Absent(Presences(actions, c.name), if s.confirmPolls < 1 then 1 else s.confirmPolls)
    {
      assert c in Of(live, c.name);
      assert Stands(ScopeIn(s, c.name), After(s, actions, c.name), c, Presences(actions, c.name));
    }
  }

  lemma DropsAreNew(before: seq<Change>, after: seq<Change>, queued: seq<Change>, s: Setup, actions: seq<Action>, i: nat)
    requires i < |actions| && Standing(before, s, actions[..i]) && Standing(after, s, actions[..i + 1])
    requires Reports(queued, s, actions[..i], actions[i])
    ensures NewDrops(before, after, queued)
  {
    forall n
      ensures Has(Of(queued, n), Dropped) <==> Has(Of(after, n), Dropped) && !Has(Of(before, n), Dropped)
    {
      FollowOne(ScopeIn(s, n), StartIn(s, n), actions, i);
      FollowSound(ScopeIn(s, n), StartIn(s, n), actions[..i]);
      hide Follow, Act, Of, Has, Sound;
      DropIsNew(ScopeIn(s, n), After(s, actions[..i], n), actions[i], Presences(actions[..i], n));
    }
  }
}
