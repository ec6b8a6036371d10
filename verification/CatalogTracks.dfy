/** What the relation watcher of src/cdc_flight/catalog_lifecycle.py keeps about one relation,
    and what each poll and each settlement makes of it.  A poll that can see the relation's
    schema compares what the source shows with what is known; a destructive or structural
    conclusion is queued only after several polls agree, and a drop is taken back as soon as
    one does not. */
module CatalogTracks {
  import opened Options
  import opened Sequences

  type Name = string

  /** A relation's generation; the row type completes it where there is no file node. */
  datatype Identity = Identity(oid: int, relfilenode: Option<int>, reltype: Option<int>)

  datatype Admission = Admitted | External | NotReady

  datatype Relation = Relation(
    identity: Identity,
    columns: seq<string>,
    published: bool,
    admission: Admission,
    partition: bool)

  datatype Kind = Dropped | Recreated | Schema | New | Unpublished | Republished

  datatype Change = Change(
    kind: Kind,
    name: Name,
    oldIdentity: Option<Identity>,
    newIdentity: Option<Identity>,
    oldRelation: Option<Relation>,
    newRelation: Option<Relation>,
    columns: Option<(seq<string>, seq<string>)>,
    lsn: int,
    confirmations: nat)

  predicate Destructive(k: Kind) {
    k.Dropped? || k.Recreated?
  }

  predicate Fenced(k: Kind) {
    Destructive(k) || k.Schema?
  }

  /** TRUNCATE rewrites the file node of the same relation, so where both row types are
      known they decide; otherwise the whole token does. */
  predicate SameLifecycle(a: Identity, b: Identity) {
    a.oid == b.oid && if a.reltype.Some? && b.reltype.Some? then a.reltype == b.reltype else a == b
  }

  /** Which relations are one lifecycle: a rewrite of the file keeps it; another oid, or another
      row type where both are known, ends it; and where a row type is unknown any other token
      does. Every relation is its own, and the order of comparison does not matter. */
  lemma LifecycleTells(a: Identity, b: Identity)
    ensures SameLifecycle(a, a) && (SameLifecycle(a, b) <==> SameLifecycle(b, a))
    ensures a.oid != b.oid ==> !SameLifecycle(a, b)
    ensures SameLifecycle(a, a.(relfilenode := b.relfilenode)) <==> a.reltype.Some? || a.relfilenode == b.relfilenode
    ensures a.reltype.Some? && b.reltype.Some? && a.reltype != b.reltype ==> !SameLifecycle(a, b)
  {
  }

  /** What must stay the same for polls to confirm one another. */
  datatype Shape = Shape(kind: Kind, identity: Option<Identity>, columns: Option<(seq<string>, seq<string>)>)

  function ShapeOf(c: Change): Shape {
    Shape(c.kind, c.newIdentity, c.columns)
  }

  function IdentityOf(r: Option<Relation>): Option<Identity> {
    if r.Some? then Some(r.value.identity) else None
  }

  function DroppedChange(name: Name, gone: Option<Relation>, lsn: int): Change {
    Change(Dropped, name, IdentityOf(gone), None, gone, gone, None, lsn, 1)
  }

  function RecreatedChange(name: Name, replaced: Option<Relation>, current: Relation, lsn: int): Change {
    Change(Recreated, name, IdentityOf(replaced), Some(current.identity), replaced, Some(current), None, lsn, 1)
  }

  function SchemaChange(name: Name, previous: Relation, current: Relation, lsn: int): Change {
    Change(Schema, name, Some(previous.identity), Some(current.identity), None, Some(current),
      Some((previous.columns, current.columns)), lsn, 1)
  }

  function PlainChange(kind: Kind, name: Name, current: Relation, lsn: int): Change {
    Change(kind, name, None, Some(current.identity), None, Some(current), None, lsn, 1)
  }

  // ---------------------------------------------------------------------------
  // The state of one relation
  // ---------------------------------------------------------------------------

  /** What does not change: the relation's name, and how the watcher is configured for it. */
  datatype Scope = Scope(name: Name, polls: nat, included: bool, unrelatable: bool, autoDiscover: bool)

  /** `streak` is the change still being confirmed, `queue` the live changes, in order. */
  datatype Track = Track(
    known: Option<Relation>,
    gone: bool,
    replicated: bool,
    streak: Option<Change>,
    queue: seq<Change>)

  /** What one poll shows of a relation whose schema it can see; `fenced` when a partition
      transition of the relation is queued. */
  datatype Sight =
    | Present(relation: Relation, fenced: bool, lsn: int)
    | Missing(fenced: bool, lsn: int)

  datatype Step = Step(track: Track, added: seq<Change>)

  predicate Has(queue: seq<Change>, kind: Kind) {
    exists c :: c in queue && c.kind == kind
  }

  predicate HasFenced(queue: seq<Change>) {
    exists c :: c in queue && Fenced(c.kind)
  }

  function Without(queue: seq<Change>, kind: Kind): seq<Change> {
    Keep(queue, (c: Change) => c.kind != kind)
  }

  function Except(queue: seq<Change>, changes: seq<Change>): seq<Change> {
    Keep(queue, (c: Change) => c !in changes)
  }

  /** Cancel queued and half-confirmed changes of one kind. */
  function Cancelled(t: Track, kind: Kind): Track {
    t.(queue := Without(t.queue, kind), streak := if t.streak.Some? && t.streak.value.kind == kind then None else t.streak)
  }

  function Queueing(t: Track, c: Change): Step {
    Step(t.(queue := t.queue + [c]), [c])
  }

  /** One confirmation carried through a streak of polls that agree. */
  function Tracked(t: Track, change: Change): Change {
    if t.streak.Some? && ShapeOf(t.streak.value) == ShapeOf(change)
    then t.streak.value.(confirmations := t.streak.value.confirmations + 1, lsn := change.lsn) else change
  }

  function Confirming(t: Track, change: Change, polls: nat): Step {
    var tracked := Tracked(t, change);
    if tracked.confirmations < polls then Step(t.(streak := Some(tracked)), []) else Step(t.(streak := None), [tracked])
  }

  /** Confirm a change, and once confirmed queue it and learn the relation. */
  function Concluding(t: Track, change: Change, polls: nat, learn: Option<Relation>): Step {
    var s := Confirming(t, change, polls);
    if s.added == [] then s
    else Step(s.track.(known := if learn.Some? then learn else s.track.known, queue := s.track.queue + s.added), s.added)
  }

  // ---------------------------------------------------------------------------
  // A relation that is there
  // ---------------------------------------------------------------------------

  predicate Matches(c: Change, current: Relation) {
    c.kind.Recreated? && c.newIdentity.Some? && SameLifecycle(c.newIdentity.value, current.identity)
  }

  predicate Outdated(c: Change, current: Relation) {
    c.kind.Recreated? && c.newIdentity.Some? && c.newIdentity.value != current.identity
  }

  /** Refresh the queued recreate of this lifecycle with the newest token. */
  function Refresh(c: Change, current: Relation, lsn: int): Change {
    if Matches(c, current) then c.(newIdentity := Some(current.identity), newRelation := Some(current), lsn := lsn) else c
  }

  function Refreshed(queue: seq<Change>, current: Relation, lsn: int): (r: seq<Change>)
    ensures |r| == |queue| && forall i :: 0 <= i < |queue| ==> r[i] == Refresh(queue[i], current, lsn)
  {
    seq(|queue|, i requires 0 <= i < |queue| => Refresh(queue[i], current, lsn))
  }

  /** The relation whose rows the destination still holds: what a queued recreate or drop
      says it replaced, else what is known. */
  function Retained(queue: seq<Change>, previous: Option<Relation>): Option<Relation> {
    var pending, drops := Keep(queue, (c: Change) => c.kind.Recreated?), Keep(queue, (c: Change) => c.kind.Dropped?);
    if pending != [] then Image(pending[0], previous)
    else if drops != [] then Image(drops[0], previous)
    else previous
  }

  function Image(c: Change, previous: Option<Relation>): Option<Relation> {
    var r := if c.oldRelation.Some? then c.oldRelation else if previous.Some? then previous else c.newRelation;
    if r.Some? && c.oldIdentity.Some? then Some(r.value.(identity := c.oldIdentity.value)) else r
  }

  /** A queued recreate of this lifecycle is refreshed, one of another is cancelled. */
  function Renewed(t: Track, current: Relation, lsn: int): Track {
    if exists c :: c in t.queue && Matches(c, current)
    then t.(queue := Refreshed(t.queue, current, lsn), known := Some(current))
    else if exists c :: c in t.queue && Outdated(c, current) then Cancelled(t, Recreated)
    else t
  }

  /** Presence cancels every drop, renews a recreate, and ends a streak about a relation that
      turns out unchanged. */
  function Welcomed(t: Track, current: Relation, lsn: int): Track {
    var kept := Cancelled(Renewed(t, current, lsn), Dropped);
    if t.known.Some? && Unchanged(t.known.value, current) then kept.(streak := None) else kept
  }

  predicate Unchanged(previous: Relation, current: Relation) {
    SameLifecycle(current.identity, previous.identity) && previous.columns == current.columns
  }

  /** A relation with no recorded generation: reconciled as a possible replacement where its
      rows cannot be related, re-admitted for a rebuild where it was gone, recorded (and
      reported when never replicated) where it is wanted, and otherwise left alone. */
  function FirstSeen(s: Scope, t: Track, current: Relation, lsn: int): Step {
    if s.unrelatable then Concluding(t, RecreatedChange(s.name, None, current, lsn), s.polls, Some(current))
    else if t.gone then
      Queueing(t.(gone := false, replicated := true, known := Some(current)), RecreatedChange(s.name, None, current, lsn))
    else if t.replicated || s.included || s.autoDiscover then
      if t.replicated then Step(t.(known := Some(current)), [])
      else Queueing(t.(known := Some(current)), PlainChange(New, s.name, current, lsn))
    else Step(t, [])
  }

  /** A relation with a recorded generation: another lifecycle is a recreate and other columns
      a schema change once enough polls agree; a relation not admitted yet, and a change of
      publication, are reported at once. */
  function Compared(s: Scope, t: Track, current: Relation, previous: Relation, replaced: Option<Relation>, busy: bool, lsn: int): Step {
    if !SameLifecycle(current.identity, previous.identity) then
      if busy then Step(t, []) else Concluding(t, RecreatedChange(s.name, replaced, current, lsn), s.polls, Some(current))
    else if s.autoDiscover && !t.replicated && current.admission.NotReady? && !Has(t.queue, New) then
      Queueing(t, PlainChange(New, s.name, current, lsn))
    else if previous.columns != current.columns then
      if Has(t.queue, Schema) then Step(t, []) else Concluding(t, SchemaChange(s.name, previous, current, lsn), s.polls, Some(current))
    else
      var learned := if current != previous then t.(known := Some(current)) else t;
      if current.published == previous.published then Step(learned, [])
      else Queueing(learned, PlainChange(if current.published then Republished else Unpublished, s.name, current, lsn))
  }

  /** A child partition is no discovery target. */
  predicate Child(s: Scope, t: Track, seen: Relation) {
    seen.partition && !s.included && !t.replicated && t.known.None?
  }

  /** The durable admission of a known relation survives the poll. */
  function Projected(t: Track, seen: Relation): Relation {
    if t.known.Some? then seen.(admission := t.known.value.admission) else seen
  }

  function Presence(s: Scope, t: Track, seen: Relation, fenced: bool, lsn: int): Step {
    if Child(s, t, seen) then Step(t, []) else
    var current := Projected(t, seen);
    var retained := Retained(t.queue, t.known);
    var mid := Welcomed(t, current, lsn);
    if t.known.None? then FirstSeen(s, mid, current, lsn)
    else Compared(s, mid, current, t.known.value, if retained.Some? then retained else t.known, fenced || HasFenced(mid.queue), lsn)
  }

  // ---------------------------------------------------------------------------
  // A relation that is missing
  // ---------------------------------------------------------------------------

  /** With no recreate queued, one that was still being confirmed describes nothing. */
  function Unsettled(t: Track): Track {
    if Has(t.queue, Recreated) then t else Cancelled(t, Recreated)
  }

  /** An absent relation the destination holds is one poll closer to a drop. */
  function Absence(s: Scope, t: Track, fenced: bool, lsn: int): Step {
    var mid := Unsettled(t);
    if fenced || HasFenced(mid.queue) || (t.known.None? && (t.gone || !t.replicated)) then Step(mid, []) else
    var retained := Retained(t.queue, t.known);
    var image := if t.known.None? then None else if retained.Some? then retained else t.known;
    Concluding(if image.Some? then mid.(known := image) else mid, DroppedChange(s.name, image, lsn), s.polls, None)
  }

  /** Whether a poll looks at the relation at all. */
  predicate Interesting(s: Scope, t: Track, sight: Sight) {
    s.included || t.replicated || t.gone || t.known.Some? || Has(t.queue, Dropped) || Has(t.queue, Recreated) ||
    (s.autoDiscover && sight.Present?)
  }

  function Visit(s: Scope, t: Track, sight: Sight): Step {
    if !Interesting(s, t, sight) then Step(t, []) else
    match sight
    case Present(relation, fenced, lsn) => Presence(s, t, relation, fenced, lsn)
    case Missing(fenced, lsn) => Absence(s, t, fenced, lsn)
  }

  // ---------------------------------------------------------------------------
  // Every action
  // ---------------------------------------------------------------------------

  datatype Action =
    | Polls(observed: map<Name, Relation>, visible: set<Name>, partitionFenced: set<Name>, lsn: int)
    | Settles(changes: seq<Change>, advanced: bool)
    | Forgets(name: Name)
    | Replaces(change: Change, identity: Identity)
    | Replicates(names: set<Name>)

  function SightOf(a: Action, n: Name): Sight
    requires a.Polls?
  {
    if n in a.observed then Present(a.observed[n], n in a.partitionFenced, a.lsn) else Missing(n in a.partitionFenced, a.lsn)
  }

  /** The relation the last settled schema change carries, else what was known. */
  function Adopted(known: Option<Relation>, changes: seq<Change>, n: Name): Option<Relation> {
    if changes == [] then known else
      var last := changes[|changes| - 1];
      if last.name == n && last.kind.Schema? && last.newRelation.Some? then last.newRelation
      else Adopted(known, changes[..|changes| - 1], n)
  }

  /** A plan found the replacement itself replaced: the recreate it was about to apply gives
      way to one for the newest generation, still fenced where the first was. */
  function Replacement(t: Track, change: Change, identity: Identity): Change
    requires t.known.Some?
  {
    var retained := Retained(t.queue, t.known);
    Change(Recreated, change.name, if retained.Some? then IdentityOf(retained) else change.oldIdentity, Some(identity),
      retained, Some(t.known.value.(identity := identity)), None, change.lsn, 1)
  }

  function Replaced(t: Track, change: Change, identity: Identity): Step
    requires t.known.Some?
  {
    Queueing(Cancelled(t, Recreated).(known := Some(t.known.value.(identity := identity))), Replacement(t, change, identity))
  }

  function Act(s: Scope, t: Track, a: Action): Step {
    match a
    case Polls(_, visible, _, _) => if s.name in visible then Visit(s, t, SightOf(a, s.name)) else Step(t, [])
    case Settles(changes, advanced) =>
      Step(t.(queue := Except(t.queue, changes),
              known := if advanced then t.known else Adopted(t.known, changes, s.name)), [])
    case Forgets(name) => Step(if name == s.name then Track(None, t.gone, false, None, []) else t, [])
    case Replaces(change, identity) =>
      if change.name == s.name && change in t.queue && change.kind.Recreated? && t.known.Some?
      then Replaced(t, change, identity) else Step(t, [])
    case Replicates(names) => Step(t.(replicated := t.replicated || s.name in names), [])
  }

  /** The state of one relation after a run, from nothing queued. */
  ghost function Follow(s: Scope, start: Track, actions: seq<Action>): Track {
    if actions == [] then start.(streak := None, queue := [])
    else Act(s, Follow(s, start, actions[..|actions| - 1]), actions[|actions| - 1]).track
  }

  lemma FollowOne(s: Scope, start: Track, actions: seq<Action>, i: nat)
    requires i < |actions|
    ensures Follow(s, start, actions[..i + 1]) == Act(s, Follow(s, start, actions[..i]), actions[i]).track
  {
    assert actions[..i + 1][..i] == actions[..i];
  }

  // ---------------------------------------------------------------------------
  // Every queued drop is confirmed, and nothing is queued twice
  // ---------------------------------------------------------------------------

  /** What one action shows about a relation: whether a poll that could see its schema found it. */
  function Shown(a: Action, n: Name): seq<bool> {
    if a.Polls? && n in a.visible then [n in a.observed] else []
  }

  /** Whether each poll that could see the relation's schema found it. */
  function Presences(actions: seq<Action>, n: Name): seq<bool> {
    if actions == [] then [] else
      var last := actions[|actions| - 1];
      Presences(actions[..|actions| - 1], n) + Shown(last, n)
  }

  /** The last `k` of them all found it absent. */
  ghost predicate Absent(seen: seq<bool>, k: nat) {
    k <= |seen| && forall i :: |seen| - k <= i < |seen| ==> !seen[i]
  }

  lemma AbsentGrows(seen: seq<bool>, k: nat)
    requires Absent(seen, k)
    ensures Absent(seen + [false], k + 1) && Absent(seen + [false], k)
  {
  }

  /** At most one drop or recreate. */
  ghost predicate OneDestructive(queue: seq<Change>) {
    forall i, j :: 0 <= i < j < |queue| ==> !(Destructive(queue[i].kind) && Destructive(queue[j].kind))
  }

  /** One queued change that still follows from the comparisons. */
  ghost predicate Stands(s: Scope, t: Track, c: Change, seen: seq<bool>) {
    c.name == s.name &&
    (c.kind.Dropped? ==> Absent(seen, s.polls) && (t.known.Some? || t.replicated)) &&
    (c.kind.Recreated? ==> t.known.Some? && c.newIdentity.Some?)
  }

  ghost predicate StreakStands(s: Scope, t: Track, c: Change, seen: seq<bool>) {
    c.name == s.name && 0 < c.confirmations < s.polls && Fenced(c.kind) &&
    (c.kind.Dropped? ==>
      Absent(seen, c.confirmations) && c.newIdentity.None? && c.columns.None? && (t.known.Some? || t.replicated)) &&
    (c.kind.Recreated? ==> c.newIdentity.Some?)
  }

  ghost predicate Sound(s: Scope, t: Track, seen: seq<bool>) {
    s.polls >= 1 && OneDestructive(t.queue) && (forall c :: c in t.queue ==> Stands(s, t, c, seen)) &&
    (t.streak.Some? ==> StreakStands(s, t, t.streak.value, seen))
  }

  lemma {:induction false} KeepOne(queue: seq<Change>, p: Change -> bool)
    requires OneDestructive(queue)
    ensures OneDestructive(Keep(queue, p))
  {
    if queue != [] {
      var front, last := queue[..|queue| - 1], queue[|queue| - 1];
      KeepOne(front, p);
      var kept := Keep(front, p);
      forall i | 0 <= i < |kept|
        ensures !(Destructive(kept[i].kind) && Destructive(last.kind))
      {
        assert kept[i] in front;
        var k :| 0 <= k < |front| && front[k] == kept[i];
        assert queue[k] == front[k];
      }
    }
  }

  lemma AppendOne(queue: seq<Change>, c: Change)
    requires OneDestructive(queue) && (Destructive(c.kind) ==> !Has(queue, Dropped) && !Has(queue, Recreated))
    ensures OneDestructive(queue + [c])
  {
    forall i | 0 <= i < |queue|
      ensures !(Destructive(queue[i].kind) && Destructive(c.kind))
    {
      assert queue[i] in queue;
    }
  }

  /** No drop is queued or being confirmed. */
  ghost predicate NoDrop(t: Track) {
    !Has(t.queue, Dropped) && !(t.streak.Some? && t.streak.value.kind.Dropped?)
  }

  lemma CancelledSound(s: Scope, t: Track, kind: Kind, seen: seq<bool>)
    requires Sound(s, t, seen)
    ensures Sound(s, Cancelled(t, kind), seen) && !Has(Cancelled(t, kind).queue, kind)
    ensures forall k :: Has(Cancelled(t, kind).queue, k) ==> Has(t.queue, k)
    ensures forall c :: c in Cancelled(t, kind).queue <==> c in t.queue && c.kind != kind
  {
    hide OneDestructive, Absent;
    KeepOne(t.queue, (c: Change) => c.kind != kind);
  }

  /** Only drops depend on what was seen. */
  lemma Reseen(s: Scope, t: Track, seen: seq<bool>, now: seq<bool>)
    requires Sound(s, t, seen) && NoDrop(t)
    ensures Sound(s, t, now)
  {
    hide OneDestructive, Absent;
  }

  lemma MissingSound(s: Scope, t: Track, seen: seq<bool>)
    requires Sound(s, t, seen)
    ensures Sound(s, t, seen + [false]) && Absent(seen + [false], 1)
    ensures t.streak.Some? && t.streak.value.kind.Dropped? ==> Absent(seen + [false], t.streak.value.confirmations + 1)
  {
    hide OneDestructive;
    forall c | c in t.queue
      ensures Stands(s, t, c, seen + [false])
    {
      assert Stands(s, t, c, seen);
      if c.kind.Dropped? { AbsentGrows(seen, s.polls); }
    }
    if t.streak.Some? && t.streak.value.kind.Dropped? { AbsentGrows(seen, t.streak.value.confirmations); }
  }

  lemma RefreshedSound(s: Scope, t: Track, current: Relation, lsn: int, seen: seq<bool>)
    requires Sound(s, t, seen)
    ensures Sound(s, t.(queue := Refreshed(t.queue, current, lsn), known := Some(current)), seen)
  {
    var r := Refreshed(t.queue, current, lsn);
    hide Refreshed, Absent;
    forall c | c in r
      ensures Stands(s, t.(queue := r, known := Some(current)), c, seen)
    {
      var i :| 0 <= i < |r| && r[i] == c;
      assert Stands(s, t, t.queue[i], seen);
    }
  }

  lemma RenewedSound(s: Scope, t: Track, current: Relation, lsn: int, seen: seq<bool>)
    requires Sound(s, t, seen)
    ensures Sound(s, Renewed(t, current, lsn), seen)
    ensures t.known.Some? == Renewed(t, current, lsn).known.Some?
  {
    hide Refreshed, Cancelled;
    if exists c :: c in t.queue && Matches(c, current) {
      var c :| c in t.queue && Matches(c, current);
      assert Stands(s, t, c, seen);
      hide Sound;
      RefreshedSound(s, t, current, lsn, seen);
    } else if exists c :: c in t.queue && Outdated(c, current) {
      hide Sound;
      CancelledSound(s, t, Recreated, seen);
      CancelledKeeps(t, Recreated);
    }
  }

  lemma WelcomedSound(s: Scope, t: Track, current: Relation, lsn: int, seen: seq<bool>)
    requires Sound(s, t, seen)
    ensures Sound(s, Welcomed(t, current, lsn), seen) && NoDrop(Welcomed(t, current, lsn))
    ensures t.known.None? ==> !Has(Welcomed(t, current, lsn).queue, Recreated)
    ensures t.known.Some? == Welcomed(t, current, lsn).known.Some?
  {
    hide Sound, Renewed, Cancelled;
    var renewed := Renewed(t, current, lsn);
    RenewedSound(s, t, current, lsn, seen);
    CancelledSound(s, renewed, Dropped, seen);
    CancelledKeeps(renewed, Dropped);
    EndsStreak(s, Cancelled(renewed, Dropped), seen);
    if t.known.None? { NothingRecreated(s, Cancelled(renewed, Dropped), seen); }
  }

  lemma CancelledKeeps(t: Track, kind: Kind)
    ensures Cancelled(t, kind).known == t.known && !(Cancelled(t, kind).streak.Some? && Cancelled(t, kind).streak.value.kind == kind)
  {
  }

  lemma EndsStreak(s: Scope, t: Track, seen: seq<bool>)
    requires Sound(s, t, seen)
    ensures Sound(s, t.(streak := None), seen)
  {
    hide OneDestructive, Absent;
  }

  lemma NothingRecreated(s: Scope, t: Track, seen: seq<bool>)
    requires Sound(s, t, seen) && t.known.None?
    ensures !Has(t.queue, Recreated) && forall c :: c in t.queue ==> !c.kind.Recreated?
  {
    hide OneDestructive, Absent;
  }

  /** A change that may be confirmed from this state. */
  ghost predicate Confirmable(s: Scope, t: Track, c: Change, learn: Option<Relation>, seen: seq<bool>) {
    c.name == s.name && c.confirmations == 1 && Fenced(c.kind) &&
    (Destructive(c.kind) ==> !Has(t.queue, Dropped) && !Has(t.queue, Recreated)) &&
    (c.kind.Recreated? ==> c.newIdentity.Some? && learn.Some?) &&
    (c.kind.Dropped? ==>
      c.newIdentity.None? && c.columns.None? && Absent(seen, 1) && (t.known.Some? || t.replicated) &&
      (t.streak.Some? && t.streak.value.kind.Dropped? ==> Absent(seen, t.streak.value.confirmations + 1)))
  }

  lemma ConcludingSound(s: Scope, t: Track, c: Change, learn: Option<Relation>, seen: seq<bool>)
    requires Sound(s, t, seen) && Confirmable(s, t, c, learn, seen)
    ensures Sound(s, Concluding(t, c, s.polls, learn).track, seen)
  {
    hide OneDestructive, Absent;
    var tracked := Tracked(t, c);
    if tracked.confirmations < s.polls {
      assert StreakStands(s, t, tracked, seen);
    } else {
      AppendOne(t.queue, tracked);
      assert tracked.kind.Dropped? ==> Absent(seen, s.polls);
      var after := Concluding(t, c, s.polls, learn).track;
      forall d | d in after.queue
        ensures Stands(s, after, d, seen)
      {
        if d != tracked { assert Stands(s, t, d, seen); }
      }
    }
  }

  lemma FirstSeenSound(s: Scope, t: Track, current: Relation, lsn: int, seen: seq<bool>)
    requires Sound(s, t, seen) && NoDrop(t) && !Has(t.queue, Recreated)
    ensures Sound(s, FirstSeen(s, t, current, lsn).track, seen)
  {
    hide OneDestructive, Absent;
    if s.unrelatable {
      ConcludingSound(s, t, RecreatedChange(s.name, None, current, lsn), Some(current), seen);
    } else if t.gone {
      QueueingSound(s, t.(gone := false, replicated := true, known := Some(current)), RecreatedChange(s.name, None, current, lsn), seen);
    } else if (t.replicated || s.included || s.autoDiscover) && !t.replicated {
      QueueingSound(s, t.(known := Some(current)), PlainChange(New, s.name, current, lsn), seen);
    }
  }

  lemma QueueingSound(s: Scope, t: Track, c: Change, seen: seq<bool>)
    requires Sound(s, t, seen) && NoDrop(t) && !c.kind.Dropped? && Stands(s, t, c, seen)
    requires c.kind.Recreated? ==> !Has(t.queue, Recreated)
    ensures Sound(s, Queueing(t, c).track, seen)
  {
    hide Absent;
    AppendOne(t.queue, c);
    hide OneDestructive;
  }

  lemma ComparedSound(s: Scope, t: Track, current: Relation, previous: Relation, replaced: Option<Relation>, busy: bool, lsn: int, seen: seq<bool>)
    requires Sound(s, t, seen) && NoDrop(t) && t.known.Some? && (!busy ==> !HasFenced(t.queue))
    ensures Sound(s, Compared(s, t, current, previous, replaced, busy, lsn).track, seen)
  {
    hide OneDestructive, Absent;
    if !SameLifecycle(current.identity, previous.identity) {
      if !busy { ConcludingSound(s, t, RecreatedChange(s.name, replaced, current, lsn), Some(current), seen); }
    } else if s.autoDiscover && !t.replicated && current.admission.NotReady? && !Has(t.queue, New) {
      QueueingSound(s, t, PlainChange(New, s.name, current, lsn), seen);
    } else if previous.columns != current.columns {
      if !Has(t.queue, Schema) { ConcludingSound(s, t, SchemaChange(s.name, previous, current, lsn), Some(current), seen); }
    } else {
      var learned := if current != previous then t.(known := Some(current)) else t;
      assert Sound(s, learned, seen);
      if current.published != previous.published {
        QueueingSound(s, learned, PlainChange(if current.published then Republished else Unpublished, s.name, current, lsn), seen);
      }
    }
  }

  lemma PresenceSound(s: Scope, t: Track, seen: Relation, fenced: bool, lsn: int, before: seq<bool>)
    requires Sound(s, t, before)
    ensures Sound(s, Presence(s, t, seen, fenced, lsn).track, before + [true])
  {
    if Child(s, t, seen) {
      UnheldNoDrop(s, t, before);
      Reseen(s, t, before, before + [true]);
    } else {
      var current := Projected(t, seen);
      WelcomedSound(s, t, current, lsn, before);
      var mid := Welcomed(t, current, lsn);
      hide Sound, Welcomed, FirstSeen, Compared, Retained, Child;
      Reseen(s, mid, before, before + [true]);
      if t.known.None? {
        FirstSeenSound(s, mid, current, lsn, before + [true]);
      } else {
        var retained := Retained(t.queue, t.known);
        ComparedSound(s, mid, current, t.known.value, if retained.Some? then retained else t.known,
          fenced || HasFenced(mid.queue), lsn, before + [true]);
      }
    }
  }

  lemma UnheldNoDrop(s: Scope, t: Track, seen: seq<bool>)
    requires Sound(s, t, seen) && t.known.None? && !t.replicated
    ensures NoDrop(t)
  {
    hide OneDestructive, Absent;
  }

  lemma AbsenceSound(s: Scope, t: Track, fenced: bool, lsn: int, before: seq<bool>)
    requires Sound(s, t, before)
    ensures Sound(s, Absence(s, t, fenced, lsn).track, before + [false])
  {
    var mid, now := Unsettled(t), before + [false];
    UnsettledSound(s, t, before);
    MissingSound(s, mid, before);
    hide Sound, Unsettled, Retained, Absent, Concluding;
    if !(fenced || HasFenced(mid.queue) || (t.known.None? && (t.gone || !t.replicated))) {
      var retained := Retained(t.queue, t.known);
      var image := if t.known.None? then None else if retained.Some? then retained else t.known;
      var learned := if image.Some? then mid.(known := image) else mid;
      if image.Some? { LearnedSound(s, mid, image, now); }
      NothingFenced(learned.queue);
      hide Has, HasFenced;
      ConcludingSound(s, learned, DroppedChange(s.name, image, lsn), None, now);
    }
  }

  lemma NothingFenced(queue: seq<Change>)
    requires !HasFenced(queue)
    ensures !Has(queue, Dropped) && !Has(queue, Recreated)
  {
  }

  lemma UnsettledSound(s: Scope, t: Track, seen: seq<bool>)
    requires Sound(s, t, seen)
    ensures Sound(s, Unsettled(t), seen) && Unsettled(t).known == t.known && Unsettled(t).replicated == t.replicated
  {
    if !Has(t.queue, Recreated) { CancelledSound(s, t, Recreated, seen); }
  }

  lemma LearnedSound(s: Scope, t: Track, known: Option<Relation>, seen: seq<bool>)
    requires Sound(s, t, seen) && known.Some?
    ensures Sound(s, t.(known := known), seen)
  {
    hide OneDestructive, Absent;
  }

  lemma VisitSound(s: Scope, t: Track, sight: Sight, seen: seq<bool>)
    requires Sound(s, t, seen)
    ensures Sound(s, Visit(s, t, sight).track, seen + [sight.Present?])
  {
    hide Presence, Absence, Sound;
    if !Interesting(s, t, sight) {
      UnheldNoDrop(s, t, seen);
      Reseen(s, t, seen, seen + [sight.Present?]);
    } else if sight.Present? {
      PresenceSound(s, t, sight.relation, sight.fenced, sight.lsn, seen);
    } else {
      AbsenceSound(s, t, sight.fenced, sight.lsn, seen);
    }
  }

  lemma SettledSound(s: Scope, t: Track, changes: seq<Change>, known: Option<Relation>, seen: seq<bool>)
    requires Sound(s, t, seen) && (t.known.Some? ==> known.Some?)
    ensures Sound(s, t.(queue := Except(t.queue, changes), known := known), seen)
  {
    KeepOne(t.queue, (c: Change) => c !in changes);
    hide OneDestructive, Absent;
  }

  lemma {:induction false} AdoptedGrows(known: Option<Relation>, changes: seq<Change>, n: Name)
    ensures known.Some? ==> Adopted(known, changes, n).Some?
  {
    if changes != [] { AdoptedGrows(known, changes[..|changes| - 1], n); }
  }

  lemma ReplacedSound(s: Scope, t: Track, change: Change, identity: Identity, seen: seq<bool>)
    requires Sound(s, t, seen) && t.known.Some? && change in t.queue && change.kind.Recreated?
    ensures Sound(s, Replaced(t, change, identity).track, seen)
  {
    CancelledSound(s, t, Recreated, seen);
    OnlyRecreate(t.queue, change);
    assert Stands(s, t, change, seen);
    var mid := Cancelled(t, Recreated).(known := Some(t.known.value.(identity := identity)));
    LearnedSound(s, Cancelled(t, Recreated), mid.known, seen);
    var next := Replacement(t, change, identity);
    AppendOne(mid.queue, next);
    hide OneDestructive, Absent, Cancelled, Retained;
  }

  lemma OnlyRecreate(queue: seq<Change>, change: Change)
    requires OneDestructive(queue) && change in queue && change.kind.Recreated?
    ensures forall c :: c in queue && Destructive(c.kind) ==> c == change
  {
    var i :| 0 <= i < |queue| && queue[i] == change;
    forall c | c in queue && Destructive(c.kind)
      ensures c == change
    {
      var j :| 0 <= j < |queue| && queue[j] == c;
      assert i == j;
    }
  }

  lemma ActSound(s: Scope, t: Track, a: Action, seen: seq<bool>)
    requires Sound(s, t, seen)
    ensures Sound(s, Act(s, t, a).track, seen + Shown(a, s.name))
  {
    assert seen + [] == seen;
    match a {
      case Polls(_, visible, _, _) =>
        if s.name in visible { VisitSound(s, t, SightOf(a, s.name), seen); }
      case Settles(changes, advanced) =>
        AdoptedGrows(t.known, changes, s.name);
        SettledSound(s, t, changes, if advanced then t.known else Adopted(t.known, changes, s.name), seen);
      case Forgets(name) =>
      case Replaces(change, identity) =>
        if change.name == s.name && change in t.queue && change.kind.Recreated? && t.known.Some? {
          ReplacedSound(s, t, change, identity, seen);
        }
      case Replicates(names) => LearnedReplicated(s, t, t.replicated || s.name in names, seen);
    }
  }

  lemma LearnedReplicated(s: Scope, t: Track, replicated: bool, seen: seq<bool>)
    requires Sound(s, t, seen) && (t.replicated ==> replicated)
    ensures Sound(s, t.(replicated := replicated), seen)
  {
    hide OneDestructive, Absent;
  }

  /** Over every run: a queued drop follows the last `polls` polls that could see the relation,
      all of which found it absent, and no two drops or recreates are queued. */
  lemma {:induction false} FollowSound(s: Scope, start: Track, actions: seq<Action>)
    requires s.polls >= 1
    ensures Sound(s, Follow(s, start, actions), Presences(actions, s.name))
    decreases |actions|
  {
    hide Act, Sound, Shown;
    if actions == [] {
      Beginning(s, start);
    } else {
      var front := actions[..|actions| - 1];
      FollowSound(s, start, front);
      ActSound(s, Follow(s, start, front), actions[|actions| - 1], Presences(front, s.name));
    }
  }

  lemma Beginning(s: Scope, start: Track)
    requires s.polls >= 1
    ensures Sound(s, start.(streak := None, queue := []), [])
  {
  }

  // ---------------------------------------------------------------------------
  // What is confirmed, and when
  // ---------------------------------------------------------------------------

  /** How many polls in a row have agreed on a change of this shape. */
  function Tally(streak: Option<Change>, shape: Shape): nat {
    if streak.Some? && ShapeOf(streak.value) == shape then streak.value.confirmations else 0
  }

  /** The change a poll finds that takes several polls to confirm: a missing relation the
      destination holds is a drop, another lifecycle than the known one a recreate, and other
      columns of the same lifecycle a schema change. */
  ghost function Finding(s: Scope, t: Track, sight: Sight): Option<Shape> {
    match sight
    case Missing(_, _) =>
      if t.known.Some? || (t.replicated && !t.gone) then Some(Shape(Dropped, None, None)) else None
    case Present(r, _, _) =>
      if t.known.None? then
        if s.unrelatable && !(r.partition && !s.included && !t.replicated) then Some(Shape(Recreated, Some(r.identity), None)) else None
      else
        var k := t.known.value;
        if !SameLifecycle(r.identity, k.identity) then Some(Shape(Recreated, Some(r.identity), None))
        else if k.columns != r.columns && !Unadmitted(s, t) then Some(Shape(Schema, Some(r.identity), Some((k.columns, r.columns))))
        else None
  }

  /** A discovered relation still waits for admission, and that is not reported. */
  ghost predicate Unadmitted(s: Scope, t: Track) {
    t.known.Some? && s.autoDiscover && !t.replicated && t.known.value.admission.NotReady? && !Has(t.queue, New)
  }

  /** Something queued stands in the way of it: any fenced change in the way of a drop; a schema
      change, a partition transition, or a recreate of this lifecycle in the way of a recreate;
      a schema change in the way of another. */
  ghost predicate Hindered(t: Track, sight: Sight, kind: Kind) {
    match sight
    case Missing(fenced, _) => fenced || Has(t.queue, Dropped) || Has(t.queue, Recreated) || Has(t.queue, Schema)
    case Present(r, fenced, _) =>
      t.known.Some? && (Has(t.queue, Schema) || (kind.Recreated? && (fenced || exists c :: c in t.queue && Matches(c, r))))
  }

  ghost predicate Votes(s: Scope, t: Track, sight: Sight, shape: Shape) {
    Interesting(s, t, sight) && Finding(s, t, sight) == Some(shape) && !Hindered(t, sight, shape.kind)
  }

  ghost predicate Looks(s: Scope, t: Track, sight: Sight) {
    Interesting(s, t, sight) && !(sight.Present? && Child(s, t, sight.relation))
  }

  /** Which relations a poll looks at: those configured, replicated, gone or known, those with a
      drop or recreate queued, and, when discovering, every one it finds; but no child partition
      that is none of configured, replicated and known. */
  lemma LooksTells(s: Scope, t: Track, sight: Sight)
    ensures Looks(s, t, sight) <==>
      (s.included || t.replicated || t.gone || t.known.Some? || (s.autoDiscover && sight.Present?) ||
        exists c :: c in t.queue && (c.kind.Dropped? || c.kind.Recreated?)) &&
      !(sight.Present? && sight.relation.partition && !s.included && !t.replicated && t.known.None?)
  {
  }

  /** A poll ends a streak it contradicts. */
  ghost predicate Contradicts(t: Track, sight: Sight, kind: Kind) {
    match sight
    case Missing(_, _) => kind.Recreated? && !Has(t.queue, Recreated)
    case Present(r, _, _) =>
      kind.Dropped? || (t.known.Some? && SameLifecycle(r.identity, t.known.value.identity) && t.known.value.columns == r.columns) ||
      (kind.Recreated? && (exists c :: c in t.queue && Outdated(c, r)) && !exists c :: c in t.queue && Matches(c, r))
  }

  /** The votes for a change of this shape that a poll leaves standing. */
  ghost function Standing(t: Track, sight: Sight, shape: Shape, before: nat): nat {
    if Contradicts(t, sight, shape.kind) then 0 else before
  }

  /** The votes after the poll: one more if it votes for the change, none once the change is
      confirmed or if it votes for another. */
  ghost function Counted(s: Scope, t: Track, sight: Sight, shape: Shape, before: nat): nat {
    var standing := Standing(t, sight, shape, before);
    if !Looks(s, t, sight) then before
    else if Votes(s, t, sight, shape) then (if standing + 1 < s.polls then standing + 1 else 0)
    else if exists other :: Votes(s, t, sight, other) then 0
    else standing
  }

  /** The fenced changes a poll queues: one confirmed by enough votes, or, at once, the rebuild
      of a relation that was gone and came back. */
  ghost predicate Queues(s: Scope, t: Track, sight: Sight, shape: Shape, before: nat) {
    (Votes(s, t, sight, shape) && Standing(t, sight, shape, before) + 1 >= s.polls) ||
    (sight.Present? && Looks(s, t, sight) && t.known.None? && !s.unrelatable && t.gone &&
      shape == Shape(Recreated, Some(sight.relation.identity), None))
  }

  ghost predicate Adds(added: seq<Change>, shape: Shape) {
    exists c :: c in added && ShapeOf(c) == shape
  }

  lemma ConcludingTells(t: Track, c: Change, polls: nat, learn: Option<Relation>, shape: Shape)
    requires Fenced(shape.kind) && c.confirmations == 1 && polls >= 1
    ensures var r, n := Concluding(t, c, polls, learn), Tally(t.streak, ShapeOf(c));
      Tally(r.track.streak, shape) == (if shape == ShapeOf(c) && n + 1 < polls then n + 1 else 0) &&
      (Adds(r.added, shape) <==> shape == ShapeOf(c) && n + 1 >= polls) && |r.added| <= 1 &&
      forall d :: d in r.added ==> d.lsn == c.lsn && (d.name == c.name || Some(d.name) == (if t.streak.Some? then Some(t.streak.value.name) else None))
  {
    var r := Concluding(t, c, polls, learn);
    if r.added != [] { assert r.added[0] in r.added; }
  }

  lemma QueueingTells(t: Track, c: Change, shape: Shape)
    ensures Queueing(t, c).track.streak == t.streak && (Adds(Queueing(t, c).added, shape) <==> ShapeOf(c) == shape)
  {
    assert c in [c];
  }

  lemma AbsenceTells(s: Scope, t: Track, sight: Sight, shape: Shape)
    requires s.polls >= 1 && Fenced(shape.kind) && sight.Missing? && Interesting(s, t, sight)
    ensures var step := Absence(s, t, sight.fenced, sight.lsn);
      Tally(step.track.streak, shape) == Counted(s, t, sight, shape, Tally(t.streak, shape)) &&
      (Adds(step.added, shape) <==> Queues(s, t, sight, shape, Tally(t.streak, shape)))
  {
    var mid, drop := Unsettled(t), Shape(Dropped, None, None);
    UnsettledTells(t, sight);
    if Votes(s, t, sight, drop) {
      var retained := Retained(t.queue, t.known);
      var image := if t.known.None? then None else if retained.Some? then retained else t.known;
      hide Unsettled, Retained, Concluding;
      ConcludingTells(if image.Some? then mid.(known := image) else mid, DroppedChange(s.name, image, sight.lsn), s.polls, None, shape);
    } else {
      hide Unsettled, Retained, Concluding;
      assert forall other :: !Votes(s, t, sight, other);
    }
  }

  lemma UnsettledTells(t: Track, sight: Sight)
    requires sight.Missing?
    ensures forall k :: Has(Unsettled(t).queue, k) == Has(t.queue, k)
    ensures HasFenced(Unsettled(t).queue) == (Has(t.queue, Dropped) || Has(t.queue, Recreated) || Has(t.queue, Schema))
    ensures forall shape :: Tally(Unsettled(t).streak, shape) == Standing(t, sight, shape, Tally(t.streak, shape))
    ensures Unsettled(t).known == t.known && Unsettled(t).replicated == t.replicated
  {
    forall k
      ensures Has(Unsettled(t).queue, k) == Has(t.queue, k)
    {
      if Has(t.queue, k) {
        var c :| c in t.queue && c.kind == k;
        assert c in Unsettled(t).queue;
      }
    }
    FencedKinds(Unsettled(t).queue);
  }

  lemma FencedKinds(queue: seq<Change>)
    ensures HasFenced(queue) == (Has(queue, Dropped) || Has(queue, Recreated) || Has(queue, Schema))
  {
  }

  /** What presence leaves of queue and streak. */
  lemma WelcomedTells(s: Scope, t: Track, current: Relation, sight: Sight, lsn: int, seen: seq<bool>)
    requires Sound(s, t, seen) && sight.Present? && current.(admission := sight.relation.admission) == sight.relation
    ensures var mid := Welcomed(t, current, lsn);
      (forall k :: !Destructive(k) ==> Has(mid.queue, k) == Has(t.queue, k)) && !Has(mid.queue, Dropped) &&
      (Has(mid.queue, Recreated) <==> exists c :: c in t.queue && Matches(c, sight.relation)) &&
      (forall shape: Shape :: Fenced(shape.kind) ==> Tally(mid.streak, shape) == Standing(t, sight, shape, Tally(t.streak, shape))) &&
      mid.replicated == t.replicated && mid.gone == t.gone &&
      mid.known == if exists c :: c in t.queue && Matches(c, sight.relation) then Some(current) else t.known
  {
    hide OneDestructive, Absent;
    RenewedTells(s, t, current, sight.relation, lsn, seen);
    var renewed := Renewed(t, current, lsn);
    CancelledTells(renewed, Dropped);
    hide Renewed, Cancelled, Sound;
  }

  lemma CancelledTells(t: Track, kind: Kind)
    ensures var r := Cancelled(t, kind);
      (forall k :: Has(r.queue, k) <==> k != kind && Has(t.queue, k)) && r.known == t.known && r.replicated == t.replicated && r.gone == t.gone &&
      r.streak == if t.streak.Some? && t.streak.value.kind == kind then None else t.streak
  {
    forall k
      ensures Has(Cancelled(t, kind).queue, k) <==> k != kind && Has(t.queue, k)
    {
      if k != kind && Has(t.queue, k) {
        var c :| c in t.queue && c.kind == k;
        assert c in Cancelled(t, kind).queue;
      }
    }
  }

  lemma RenewedTells(s: Scope, t: Track, current: Relation, r: Relation, lsn: int, seen: seq<bool>)
    requires Sound(s, t, seen) && current.identity == r.identity
    ensures var renewed, matching := Renewed(t, current, lsn), exists c :: c in t.queue && Matches(c, r);
      (forall k: Kind :: !k.Recreated? ==> Has(renewed.queue, k) == Has(t.queue, k)) && (Has(renewed.queue, Recreated) <==> matching) &&
      renewed.replicated == t.replicated && renewed.gone == t.gone && renewed.known == (if matching then Some(current) else t.known) &&
      renewed.streak ==
        if !matching && (exists c :: c in t.queue && Outdated(c, r)) && t.streak.Some? && t.streak.value.kind.Recreated? then None else t.streak
  {
    hide OneDestructive, Absent;
    assert forall c :: Matches(c, r) == Matches(c, current) && Outdated(c, r) == Outdated(c, current);
    if exists c :: c in t.queue && Matches(c, current) {
      RefreshedTells(t.queue, current, lsn);
      assert Has(t.queue, Recreated);
    } else if exists c :: c in t.queue && Outdated(c, current) {
      CancelledTells(t, Recreated);
    } else {
      forall c | c in t.queue
        ensures !c.kind.Recreated?
      {
        assert Stands(s, t, c, seen);
      }
    }
  }

  lemma RefreshedTells(queue: seq<Change>, current: Relation, lsn: int)
    ensures forall k :: Has(Refreshed(queue, current, lsn), k) == Has(queue, k)
  {
    var r := Refreshed(queue, current, lsn);
    hide Refreshed;
    forall k
      ensures Has(r, k) == Has(queue, k)
    {
      if Has(r, k) {
        var c :| c in r && c.kind == k;
        var i :| 0 <= i < |r| && r[i] == c;
        assert queue[i] in queue;
      }
      if Has(queue, k) {
        var c :| c in queue && c.kind == k;
        var i :| 0 <= i < |queue| && queue[i] == c;
        assert r[i] in r;
      }
    }
  }

  lemma UnknownTells(s: Scope, t: Track, sight: Sight, shape: Shape, mid: Track)
    requires s.polls >= 1 && Fenced(shape.kind) && sight.Present? && Looks(s, t, sight) && t.known.None?
    requires mid.gone == t.gone && mid.replicated == t.replicated
    requires forall shape: Shape :: Fenced(shape.kind) ==> Tally(mid.streak, shape) == Standing(t, sight, shape, Tally(t.streak, shape))
    ensures var step := FirstSeen(s, mid, sight.relation, sight.lsn);
      Tally(step.track.streak, shape) == Counted(s, t, sight, shape, Tally(t.streak, shape)) &&
      (Adds(step.added, shape) <==> Queues(s, t, sight, shape, Tally(t.streak, shape)))
  {
    var r := sight.relation;
    var recreated := Shape(Recreated, Some(r.identity), None);
    hide Concluding, Standing, Tally;
    if s.unrelatable {
      assert Votes(s, t, sight, recreated);
      ConcludingTells(mid, RecreatedChange(s.name, None, r, sight.lsn), s.polls, Some(r), shape);
    } else {
      assert forall other :: !Votes(s, t, sight, other);
      if t.gone {
        QueueingTells(mid.(gone := false, replicated := true, known := Some(r)), RecreatedChange(s.name, None, r, sight.lsn), shape);
      } else {
        QueueingTells(mid.(known := Some(r)), PlainChange(New, s.name, r, sight.lsn), shape);
      }
    }
  }

  lemma KnownTells(s: Scope, t: Track, sight: Sight, shape: Shape, mid: Track, replaced: Option<Relation>)
    requires s.polls >= 1 && Fenced(shape.kind) && sight.Present? && Looks(s, t, sight) && t.known.Some?
    requires mid.replicated == t.replicated && (forall k :: !Destructive(k) ==> Has(mid.queue, k) == Has(t.queue, k))
    requires !Has(mid.queue, Dropped) && (Has(mid.queue, Recreated) <==> exists c :: c in t.queue && Matches(c, sight.relation))
    requires forall shape: Shape :: Fenced(shape.kind) ==> Tally(mid.streak, shape) == Standing(t, sight, shape, Tally(t.streak, shape))
    ensures var step := Compared(s, mid, Projected(t, sight.relation), t.known.value, replaced, sight.fenced || HasFenced(mid.queue), sight.lsn);
      Tally(step.track.streak, shape) == Counted(s, t, sight, shape, Tally(t.streak, shape)) &&
      (Adds(step.added, shape) <==> Queues(s, t, sight, shape, Tally(t.streak, shape)))
  {
    var r, current, k := sight.relation, Projected(t, sight.relation), t.known.value;
    var busy := sight.fenced || HasFenced(mid.queue);
    FencedKinds(mid.queue);
    hide Concluding, Standing, Tally, HasFenced;
    if !SameLifecycle(r.identity, k.identity) {
      if busy {
        assert forall other :: !Votes(s, t, sight, other);
      } else {
        assert Votes(s, t, sight, Shape(Recreated, Some(r.identity), None));
        ConcludingTells(mid, RecreatedChange(s.name, replaced, current, sight.lsn), s.polls, Some(current), shape);
      }
    } else if Unadmitted(s, t) {
      assert forall other :: !Votes(s, t, sight, other);
      QueueingTells(mid, PlainChange(New, s.name, current, sight.lsn), shape);
    } else if k.columns != r.columns {
      if Has(t.queue, Schema) {
        assert forall other :: !Votes(s, t, sight, other);
      } else {
        assert Votes(s, t, sight, Shape(Schema, Some(r.identity), Some((k.columns, r.columns))));
        ConcludingTells(mid, SchemaChange(s.name, k, current, sight.lsn), s.polls, Some(current), shape);
      }
    } else {
      assert forall other :: !Votes(s, t, sight, other);
      var learned := if current != k then mid.(known := Some(current)) else mid;
      QueueingTells(learned, PlainChange(if current.published then Republished else Unpublished, s.name, current, sight.lsn), shape);
    }
  }

  lemma PresenceTells(s: Scope, t: Track, sight: Sight, shape: Shape, seen: seq<bool>)
    requires Sound(s, t, seen) && Fenced(shape.kind) && sight.Present? && Interesting(s, t, sight)
    ensures var step := Presence(s, t, sight.relation, sight.fenced, sight.lsn);
      Tally(step.track.streak, shape) == Counted(s, t, sight, shape, Tally(t.streak, shape)) &&
      (Adds(step.added, shape) <==> Queues(s, t, sight, shape, Tally(t.streak, shape)))
  {
    if !Child(s, t, sight.relation) {
      var current := Projected(t, sight.relation);
      var mid := Welcomed(t, current, sight.lsn);
      WelcomedTells(s, t, current, sight, sight.lsn, seen);
      var retained := Retained(t.queue, t.known);
      hide Welcomed, Retained, FirstSeen, Compared, Counted, Queues, Standing, Tally;
      if t.known.None? {
        UnknownTells(s, t, sight, shape, mid);
      } else {
        KnownTells(s, t, sight, shape, mid, if retained.Some? then retained else t.known);
      }
    }
  }

  /** The law of confirmation, for one poll: how many votes a fenced change of this shape has,
      and whether the poll queues it. */
  lemma VisitTells(s: Scope, t: Track, sight: Sight, shape: Shape, seen: seq<bool>)
    requires Sound(s, t, seen) && Fenced(shape.kind)
    ensures var step := Visit(s, t, sight);
      Tally(step.track.streak, shape) == Counted(s, t, sight, shape, Tally(t.streak, shape)) &&
      (Adds(step.added, shape) <==> Queues(s, t, sight, shape, Tally(t.streak, shape)))
  {
    hide Presence, Absence, Tally;
    if Interesting(s, t, sight) {
      if sight.Present? { PresenceTells(s, t, sight, shape, seen); } else { AbsenceTells(s, t, sight, shape); }
    }
  }

  /** The votes for a change of this shape over a whole run. */
  ghost function Agreed(s: Scope, start: Track, actions: seq<Action>, shape: Shape): nat {
    if actions == [] then 0 else
      var front, a := actions[..|actions| - 1], actions[|actions| - 1];
      var before, t := Agreed(s, start, front, shape), Follow(s, start, front);
      match a
      case Polls(_, visible, _, _) => if s.name in visible then Counted(s, t, SightOf(a, s.name), shape, before) else before
      case Forgets(name) => if name == s.name then 0 else before
      case Replaces(change, _) =>
        if shape.kind.Recreated? && change.name == s.name && change in t.queue && change.kind.Recreated? && t.known.Some? then 0 else before
      case _ => before
  }

  lemma {:induction false} FollowTells(s: Scope, start: Track, actions: seq<Action>, shape: Shape)
    requires s.polls >= 1 && Fenced(shape.kind)
    ensures Tally(Follow(s, start, actions).streak, shape) == Agreed(s, start, actions, shape)
    decreases |actions|
  {
    hide Counted;
    if actions != [] {
      var front, a := actions[..|actions| - 1], actions[|actions| - 1];
      var t := Follow(s, start, front);
      FollowTells(s, start, front, shape);
      FollowSound(s, start, front);
      if a.Polls? && s.name in a.visible {
        VisitTells(s, t, SightOf(a, s.name), shape, Presences(front, s.name));
      } else if a.Replaces? {
        hide Retained;
      }
      hide Visit, Sound;
    }
  }

  /** Over every run: a poll queues a drop, a recreate or a schema change exactly when the polls
      that could see the relation have voted for it often enough, counting this one. */
  lemma QueuedIffAgreed(s: Scope, start: Track, actions: seq<Action>, i: nat, shape: Shape)
    requires s.polls >= 1 && Fenced(shape.kind) && i < |actions| && actions[i].Polls? && s.name in actions[i].visible
    ensures var t := Follow(s, start, actions[..i]);
      Adds(Act(s, t, actions[i]).added, shape) <==> Queues(s, t, SightOf(actions[i], s.name), shape, Agreed(s, start, actions[..i], shape))
  {
    FollowTells(s, start, actions[..i], shape);
    FollowSound(s, start, actions[..i]);
    hide Follow, Sound, Visit, Queues, Agreed;
    VisitTells(s, Follow(s, start, actions[..i]), SightOf(actions[i], s.name), shape, Presences(actions[..i], s.name));
  }

  // ---------------------------------------------------------------------------
  // What else a poll does
  // ---------------------------------------------------------------------------

  /** At most one change, of this relation and this generation, at this position. */
  ghost predicate Placed(added: seq<Change>, name: Name, identity: Option<Identity>, lsn: int) {
    |added| <= 1 && forall c :: c in added ==> c.name == name && c.newIdentity == identity && c.lsn == lsn
  }

  lemma ConcludingPlaced(t: Track, c: Change, polls: nat, learn: Option<Relation>)
    requires t.streak.Some? ==> t.streak.value.name == c.name
    ensures Placed(Concluding(t, c, polls, learn).added, c.name, c.newIdentity, c.lsn)
  {
  }

  lemma FirstPlaced(s: Scope, t: Track, current: Relation, lsn: int)
    requires t.streak.Some? ==> t.streak.value.name == s.name
    ensures Placed(FirstSeen(s, t, current, lsn).added, s.name, Some(current.identity), lsn)
  {
    ConcludingPlaced(t, RecreatedChange(s.name, None, current, lsn), s.polls, Some(current));
    hide Concluding;
  }

  lemma ComparedPlaced(s: Scope, t: Track, current: Relation, previous: Relation, replaced: Option<Relation>, busy: bool, lsn: int)
    requires t.streak.Some? ==> t.streak.value.name == s.name
    ensures Placed(Compared(s, t, current, previous, replaced, busy, lsn).added, s.name, Some(current.identity), lsn)
  {
    ConcludingPlaced(t, RecreatedChange(s.name, replaced, current, lsn), s.polls, Some(current));
    ConcludingPlaced(t, SchemaChange(s.name, previous, current, lsn), s.polls, Some(current));
    hide Concluding;
  }

  lemma StreakNamed(s: Scope, t: Track, seen: seq<bool>)
    requires Sound(s, t, seen)
    ensures t.streak.Some? ==> t.streak.value.name == s.name
  {
  }

  lemma StreakLeft(t: Track, current: Relation, lsn: int)
    ensures Welcomed(t, current, lsn).streak.Some? ==> Welcomed(t, current, lsn).streak == t.streak
  {
  }

  /** A poll adds at most one change, fenced at the position of that poll. */
  lemma AddedTells(s: Scope, t: Track, sight: Sight)
    requires t.streak.Some? ==> t.streak.value.name == s.name
    ensures Placed(Visit(s, t, sight).added, s.name, if sight.Present? then Some(sight.relation.identity) else None, sight.lsn)
  {
    hide Retained, FirstSeen, Compared, Welcomed, Unsettled, Concluding;
    var retained := Retained(t.queue, t.known);
    if sight.Present? {
      var current := Projected(t, sight.relation);
      var mid := Welcomed(t, current, sight.lsn);
      StreakLeft(t, current, sight.lsn);
      FirstPlaced(s, mid, current, sight.lsn);
      if t.known.Some? {
        ComparedPlaced(s, mid, current, t.known.value, if retained.Some? then retained else t.known,
          sight.fenced || HasFenced(mid.queue), sight.lsn);
      }
    } else {
      var mid := Unsettled(t);
      var image := if t.known.None? then None else if retained.Some? then retained else t.known;
      assert mid.streak.Some? ==> mid.streak == t.streak by { UnsettledLeft(t); }
      ConcludingPlaced(if image.Some? then mid.(known := image) else mid, DroppedChange(s.name, image, sight.lsn), s.polls, None);
    }
  }

  lemma UnsettledLeft(t: Track)
    ensures Unsettled(t).streak.Some? ==> Unsettled(t).streak == t.streak
  {
  }

  /** What a poll reports at once, without confirmation: a relation it records for the first
      time, or that still waits for admission, and a change of publication. */
  lemma ReportTells(s: Scope, t: Track, sight: Sight, seen: seq<bool>)
    requires Sound(s, t, seen) && sight.Present?
    ensures var added, r, looks := Visit(s, t, sight).added, sight.relation, Looks(s, t, sight);
      var same := t.known.Some? && SameLifecycle(r.identity, t.known.value.identity);
      var first := t.known.None? && !s.unrelatable && !t.gone && !t.replicated && (s.included || s.autoDiscover);
      var plain := looks && same && !Unadmitted(s, t) && t.known.value.columns == r.columns;
      (Has(added, New) <==> looks && (first || (same && Unadmitted(s, t)))) &&
      (Has(added, Unpublished) <==> plain && !r.published && t.known.value.published) &&
      (Has(added, Republished) <==> plain && r.published && !t.known.value.published)
  {
    if Looks(s, t, sight) {
      var current := Projected(t, sight.relation);
      var mid, retained := Welcomed(t, current, sight.lsn), Retained(t.queue, t.known);
      WelcomedTells(s, t, current, sight, sight.lsn, seen);
      hide Welcomed, Retained, Sound, FirstSeen, Compared, Standing;
      if t.known.None? {
        FirstReports(s, mid, current, sight.lsn);
      } else {
        ComparedReports(s, t, sight, mid, if retained.Some? then retained else t.known, sight.fenced || HasFenced(mid.queue));
      }
    }
  }

  lemma ConcludingReports(t: Track, c: Change, polls: nat, learn: Option<Relation>)
    ensures forall k :: !Fenced(k) && Fenced(c.kind) ==> !Has(Concluding(t, c, polls, learn).added, k)
  {
  }

  lemma FirstReports(s: Scope, t: Track, current: Relation, lsn: int)
    ensures var added := FirstSeen(s, t, current, lsn).added;
      (Has(added, New) <==> !s.unrelatable && !t.gone && !t.replicated && (s.included || s.autoDiscover)) &&
      !Has(added, Unpublished) && !Has(added, Republished)
  {
    ConcludingReports(t, RecreatedChange(s.name, None, current, lsn), s.polls, Some(current));
    hide Concluding;
    Reported(PlainChange(New, s.name, current, lsn));
  }

  lemma ComparedReports(s: Scope, t: Track, sight: Sight, mid: Track, replaced: Option<Relation>, busy: bool)
    requires sight.Present? && t.known.Some? && mid.replicated == t.replicated && Has(mid.queue, New) == Has(t.queue, New)
    ensures var r := sight.relation;
      var same := SameLifecycle(r.identity, t.known.value.identity);
      var plain := same && !Unadmitted(s, t) && t.known.value.columns == r.columns;
      var added := Compared(s, mid, Projected(t, r), t.known.value, replaced, busy, sight.lsn).added;
      (Has(added, New) <==> same && Unadmitted(s, t)) &&
      (Has(added, Unpublished) <==> plain && !r.published && t.known.value.published) &&
      (Has(added, Republished) <==> plain && r.published && !t.known.value.published)
  {
    var current, k := Projected(t, sight.relation), t.known.value;
    ConcludingReports(mid, RecreatedChange(s.name, replaced, current, sight.lsn), s.polls, Some(current));
    ConcludingReports(mid, SchemaChange(s.name, k, current, sight.lsn), s.polls, Some(current));
    hide Concluding;
    Reported(PlainChange(New, s.name, current, sight.lsn));
    Reported(PlainChange(Unpublished, s.name, current, sight.lsn));
    Reported(PlainChange(Republished, s.name, current, sight.lsn));
  }

  lemma Reported(c: Change)
    ensures forall k :: Has([c], k) <==> k == c.kind
  {
    assert c in [c];
  }

  /** What a poll learns: a relation it records, reconciles or re-admits, one whose recreate or
      schema change it queues, one whose recreate it renews, and one that is otherwise
      unchanged; its durable admission survives. A missing relation stays as it was known. */
  lemma LearnTells(s: Scope, t: Track, sight: Sight, seen: seq<bool>)
    requires Sound(s, t, seen)
    ensures var step, looks := Visit(s, t, sight), sight.Present? && Looks(s, t, sight);
      var back := looks && t.known.None? && !s.unrelatable && t.gone;
      step.track.gone == (t.gone && !back) && step.track.replicated == (t.replicated || back) &&
      step.track.known ==
        if !looks then t.known
        else if t.known.None? then Recorded(s, t, sight.relation, step.added)
        else if Adopts(s, t, sight.relation, step.added) then Some(sight.relation.(admission := t.known.value.admission))
        else t.known
  {
    if sight.Present? && Looks(s, t, sight) {
      var current := Projected(t, sight.relation);
      var mid, retained := Welcomed(t, current, sight.lsn), Retained(t.queue, t.known);
      WelcomedTells(s, t, current, sight, sight.lsn, seen);
      hide Welcomed, Retained, Sound, FirstSeen, Compared, Standing;
      if t.known.None? {
        WelcomedSound(s, t, current, sight.lsn, seen);
        FirstLearns(s, mid, current, sight.lsn);
      } else {
        ComparedLearns(s, t, sight, mid, if retained.Some? then retained else t.known, sight.fenced || HasFenced(mid.queue));
      }
    } else if sight.Missing? && Interesting(s, t, sight) {
      AbsenceLearns(s, t, sight);
    }
  }

  ghost function Recorded(s: Scope, t: Track, r: Relation, added: seq<Change>): Option<Relation> {
    if s.unrelatable then (if Has(added, Recreated) then Some(r) else None)
    else if t.gone || t.replicated || s.included || s.autoDiscover then Some(r) else None
  }

  ghost predicate Adopts(s: Scope, t: Track, r: Relation, added: seq<Change>)
    requires t.known.Some?
  {
    Has(added, Recreated) || Has(added, Schema) || (exists c :: c in t.queue && Matches(c, r)) ||
    (SameLifecycle(r.identity, t.known.value.identity) && t.known.value.columns == r.columns && !Unadmitted(s, t))
  }

  lemma ConcludingLearns(t: Track, c: Change, polls: nat, learn: Option<Relation>)
    requires c.confirmations == 1 && polls >= 1
    ensures var r := Concluding(t, c, polls, learn);
      (Has(r.added, c.kind) <==> r.added != []) && (forall k :: Has(r.added, k) ==> k == c.kind) &&
      r.track.known == (if r.added != [] && learn.Some? then learn else t.known) &&
      r.track.gone == t.gone && r.track.replicated == t.replicated
  {
    var r := Concluding(t, c, polls, learn);
    if r.added != [] { assert r.added[0] in r.added; }
  }

  lemma FirstLearns(s: Scope, t: Track, current: Relation, lsn: int)
    requires t.known.None? && s.polls >= 1
    ensures var r := FirstSeen(s, t, current, lsn);
      r.track.known == Recorded(s, t, current, r.added) && r.track.gone == (t.gone && s.unrelatable) &&
      r.track.replicated == (t.replicated || (t.gone && !s.unrelatable))
  {
    ConcludingLearns(t, RecreatedChange(s.name, None, current, lsn), s.polls, Some(current));
    hide Concluding;
  }

  lemma ComparedLearns(s: Scope, t: Track, sight: Sight, mid: Track, replaced: Option<Relation>, busy: bool)
    requires s.polls >= 1 && sight.Present? && t.known.Some? && mid.replicated == t.replicated && mid.gone == t.gone
    requires Has(mid.queue, New) == Has(t.queue, New)
    requires mid.known == if exists c :: c in t.queue && Matches(c, sight.relation) then Some(Projected(t, sight.relation)) else t.known
    ensures var r := Compared(s, mid, Projected(t, sight.relation), t.known.value, replaced, busy, sight.lsn);
      r.track.gone == t.gone && r.track.replicated == t.replicated &&
      r.track.known == if Adopts(s, t, sight.relation, r.added) then Some(Projected(t, sight.relation)) else t.known
  {
    var current, k := Projected(t, sight.relation), t.known.value;
    var added := Compared(s, mid, current, k, replaced, busy, sight.lsn).added;
    NothingHas();
    hide Concluding, Matches, Has, SameLifecycle;
    if !SameLifecycle(current.identity, k.identity) {
      ConcludingLearns(mid, RecreatedChange(s.name, replaced, current, sight.lsn), s.polls, Some(current));
    } else if Unadmitted(s, t) {
      Reported(PlainChange(New, s.name, current, sight.lsn));
    } else if k.columns != current.columns {
      ConcludingLearns(mid, SchemaChange(s.name, k, current, sight.lsn), s.polls, Some(current));
    }
  }

  lemma NothingHas()
    ensures forall k :: !Has([], k)
  {
  }

  lemma AbsenceLearns(s: Scope, t: Track, sight: Sight)
    requires s.polls >= 1 && sight.Missing?
    ensures var r := Absence(s, t, sight.fenced, sight.lsn).track;
      r.known == t.known && r.gone == t.gone && r.replicated == t.replicated
  {
    UnsettledTells(t, sight);
    var mid := Unsettled(t);
    if !(sight.fenced || HasFenced(mid.queue) || (t.known.None? && (t.gone || !t.replicated))) {
      NothingRetained(t);
      hide Retained;
      ConcludingLearns(mid, DroppedChange(s.name, t.known, sight.lsn), s.polls, None);
    }
  }

  lemma NothingRetained(t: Track)
    requires !Has(t.queue, Recreated) && !Has(t.queue, Dropped)
    ensures Retained(t.queue, t.known) == t.known
  {
    NoneKept(t.queue, (c: Change) => c.kind.Recreated?);
    NoneKept(t.queue, (c: Change) => c.kind.Dropped?);
  }

  lemma {:induction false} NoneKept(queue: seq<Change>, p: Change -> bool)
    requires forall c :: c in queue ==> !p(c)
    ensures Keep(queue, p) == []
  {
    if queue != [] { NoneKept(queue[..|queue| - 1], p); }
  }

  /** What is queued after a poll: what it adds, and, where it sees the relation, no drop, a
      recreate only of the lifecycle seen, renewed, and all else that was there. */
  lemma QueueTells(s: Scope, t: Track, sight: Sight, seen: seq<bool>, c: Change)
    requires Sound(s, t, seen)
    ensures var step, looks := Visit(s, t, sight), sight.Present? && Looks(s, t, sight);
      c in step.track.queue <==> c in step.added || (if looks then Kept(t, sight, c) else c in t.queue)
  {
    hide Welcomed, Retained, Sound, FirstSeen, Compared, Unsettled, Concluding, Kept;
    if sight.Present? && Looks(s, t, sight) {
      var current := Projected(t, sight.relation);
      var mid, retained := Welcomed(t, current, sight.lsn), Retained(t.queue, t.known);
      WelcomedQueue(s, t, sight, seen, c);
      FirstQueue(s, mid, current, sight.lsn);
      if t.known.Some? {
        ComparedQueue(s, mid, current, t.known.value, if retained.Some? then retained else t.known,
          sight.fenced || HasFenced(mid.queue), sight.lsn);
      }
    } else if sight.Missing? {
      var mid, retained := Unsettled(t), Retained(t.queue, t.known);
      UnsettledQueue(t);
      var image := if t.known.None? then None else if retained.Some? then retained else t.known;
      ConcludingQueue(if image.Some? then mid.(known := image) else mid, DroppedChange(s.name, image, sight.lsn), s.polls, None);
    }
  }

  lemma ConcludingQueue(t: Track, c: Change, polls: nat, learn: Option<Relation>)
    ensures var r := Concluding(t, c, polls, learn); r.track.queue == t.queue + r.added
  {
    assert t.queue + [] == t.queue;
  }

  lemma FirstQueue(s: Scope, t: Track, current: Relation, lsn: int)
    ensures var r := FirstSeen(s, t, current, lsn); r.track.queue == t.queue + r.added
  {
    ConcludingQueue(t, RecreatedChange(s.name, None, current, lsn), s.polls, Some(current));
    hide Concluding;
    assert t.queue + [] == t.queue;
  }

  lemma ComparedQueue(s: Scope, t: Track, current: Relation, previous: Relation, replaced: Option<Relation>, busy: bool, lsn: int)
    ensures var r := Compared(s, t, current, previous, replaced, busy, lsn); r.track.queue == t.queue + r.added
  {
    ConcludingQueue(t, RecreatedChange(s.name, replaced, current, lsn), s.polls, Some(current));
    ConcludingQueue(t, SchemaChange(s.name, previous, current, lsn), s.polls, Some(current));
    hide Concluding;
    assert t.queue + [] == t.queue;
  }

  ghost predicate Kept(t: Track, sight: Sight, c: Change)
    requires sight.Present?
  {
    (!Destructive(c.kind) && c in t.queue) || (c.kind.Recreated? && exists d :: d in t.queue && Renews(t, sight, d, c))
  }

  /** `c` is the queued recreate `d` of the lifecycle seen, with its newest token. */
  ghost predicate Renews(t: Track, sight: Sight, d: Change, c: Change)
    requires sight.Present?
  {
    Matches(d, sight.relation) &&
    c == d.(newIdentity := Some(sight.relation.identity), newRelation := Some(Projected(t, sight.relation)), lsn := sight.lsn)
  }

  lemma UnsettledQueue(t: Track)
    ensures forall c :: c in Unsettled(t).queue <==> c in t.queue
  {
  }

  lemma WelcomedQueue(s: Scope, t: Track, sight: Sight, seen: seq<bool>, c: Change)
    requires Sound(s, t, seen) && sight.Present?
    ensures c in Welcomed(t, Projected(t, sight.relation), sight.lsn).queue <==> Kept(t, sight, c)
  {
    var current := Projected(t, sight.relation);
    var renewed := Renewed(t, current, sight.lsn);
    RenewedQueue(s, t, sight, seen, c);
    hide Renewed, Sound, Renews;
    assert c in Cancelled(renewed, Dropped).queue <==> c in renewed.queue && c.kind != Dropped;
  }

  lemma RenewedQueue(s: Scope, t: Track, sight: Sight, seen: seq<bool>, c: Change)
    requires Sound(s, t, seen) && sight.Present?
    ensures c in Renewed(t, Projected(t, sight.relation), sight.lsn).queue <==>
      (!c.kind.Recreated? && c in t.queue) || (c.kind.Recreated? && exists d :: d in t.queue && Renews(t, sight, d, c))
  {
    var current := Projected(t, sight.relation);
    assert forall d :: Matches(d, current) == Matches(d, sight.relation) && Outdated(d, current) == Outdated(d, sight.relation);
    if exists d :: d in t.queue && Matches(d, current) {
      var d :| d in t.queue && Matches(d, current);
      OnlyRecreate(t.queue, d);
      hide OneDestructive, Absent, Sound;
      RefreshedQueue(t.queue, current, sight.lsn, c);
      if c.kind.Recreated? {
        assert forall e :: e in t.queue && c == Refresh(e, current, sight.lsn) ==> e == d;
        assert Renews(t, sight, d, Refresh(d, current, sight.lsn));
      } else {
        assert c in t.queue ==> Refresh(c, current, sight.lsn) == c;
      }
    } else {
      AllOutdated(s, t, current, seen);
      hide OneDestructive, Absent, Sound;
    }
  }

  lemma AllOutdated(s: Scope, t: Track, current: Relation, seen: seq<bool>)
    requires Sound(s, t, seen) && !exists d :: d in t.queue && Matches(d, current)
    ensures forall d :: d in t.queue && d.kind.Recreated? ==> Outdated(d, current)
  {
    hide OneDestructive, Absent;
    forall d | d in t.queue && d.kind.Recreated?
      ensures Outdated(d, current)
    {
      assert Stands(s, t, d, seen);
    }
  }

  lemma RefreshedQueue(queue: seq<Change>, current: Relation, lsn: int, c: Change)
    ensures c in Refreshed(queue, current, lsn) <==> exists d :: d in queue && c == Refresh(d, current, lsn)
  {
    var r := Refreshed(queue, current, lsn);
    hide Refreshed;
    if c in r {
      var i :| 0 <= i < |r| && r[i] == c;
      assert queue[i] in queue;
    }
    if d :| d in queue && c == Refresh(d, current, lsn) {
      var i :| 0 <= i < |queue| && queue[i] == d;
      assert r[i] in r;
    }
  }

  // ---------------------------------------------------------------------------
  // Polls that go on agreeing
  // ---------------------------------------------------------------------------

  /** Two polls that show the same, at whatever positions. */
  predicate Alike(a: Sight, b: Sight) {
    a.Present? == b.Present? && a.fenced == b.fenced && (a.Present? ==> a.relation == b.relation)
  }

  /** A poll that votes adds nothing but the change it votes for. */
  lemma NothingElse(s: Scope, t: Track, sight: Sight, shape: Shape, seen: seq<bool>)
    requires Sound(s, t, seen) && Votes(s, t, sight, shape) && Fenced(shape.kind)
    requires Standing(t, sight, shape, Tally(t.streak, shape)) + 1 < s.polls
    ensures Visit(s, t, sight).added == []
  {
    var added := Visit(s, t, sight).added;
    StreakNamed(s, t, seen);
    AddedTells(s, t, sight);
    if sight.Present? { ReportTells(s, t, sight, seen); }
    if sight.Missing? { PlainNeedsSight(s, t, sight); }
    if added != [] {
      var c := added[0];
      assert c in added;
      if Fenced(c.kind) { VisitTells(s, t, sight, ShapeOf(c), seen); }
      hide Visit, Sound, Standing;
      assert false;
    }
  }

  lemma PlainNeedsSight(s: Scope, t: Track, sight: Sight)
    requires sight.Missing?
    ensures forall c :: c in Visit(s, t, sight).added ==> c.kind.Dropped?
  {
    hide Unsettled, Retained;
  }

  /** A vote that does not confirm yet is followed by another, as long as the polls agree. */
  lemma VotesAgain(s: Scope, t: Track, sight: Sight, next: Sight, shape: Shape, seen: seq<bool>)
    requires Sound(s, t, seen) && Votes(s, t, sight, shape) && Fenced(shape.kind) && Alike(sight, next)
    requires shape.kind.Schema? ==> !Has(t.queue, Recreated)
    requires Standing(t, sight, shape, Tally(t.streak, shape)) + 1 < s.polls
    ensures var u := Visit(s, t, sight).track;
      Votes(s, u, next, shape) && (shape.kind.Schema? ==> !Has(u.queue, Recreated)) &&
      Standing(u, next, shape, Tally(u.streak, shape)) == Standing(t, sight, shape, Tally(t.streak, shape)) + 1
  {
    var u := Visit(s, t, sight).track;
    NothingElse(s, t, sight, shape, seen);
    VisitTells(s, t, sight, shape, seen);
    LearnTells(s, t, sight, seen);
    NothingHas();
    SameQueue(s, t, sight, shape, seen);
    UnheldNothing(s, t, seen);
    assert u.known == t.known && u.gone == t.gone && u.replicated == t.replicated;
    hide Visit, Sound, Tally;
    assert Unadmitted(s, u) == Unadmitted(s, t);
  }

  lemma UnheldNothing(s: Scope, t: Track, seen: seq<bool>)
    requires Sound(s, t, seen)
    ensures t.known.None? ==> !Has(t.queue, Recreated)
    ensures t.known.None? && Has(t.queue, Dropped) ==> t.replicated
  {
    hide OneDestructive, Absent;
  }

  /** What stays queued beside a vote: everything but drops and recreates, and no recreate. */
  lemma SameQueue(s: Scope, t: Track, sight: Sight, shape: Shape, seen: seq<bool>)
    requires Sound(s, t, seen) && Votes(s, t, sight, shape) && Visit(s, t, sight).added == []
    requires shape.kind.Schema? ==> !Has(t.queue, Recreated)
    ensures var u := Visit(s, t, sight).track;
      Has(u.queue, New) == Has(t.queue, New) && Has(u.queue, Schema) == Has(t.queue, Schema) &&
      !Has(u.queue, Recreated) && !Has(u.queue, Dropped)
  {
    var u := Visit(s, t, sight).track;
    forall c
      ensures c in u.queue <==> (if sight.Present? then Kept(t, sight, c) else c in t.queue)
    {
      QueueTells(s, t, sight, seen, c);
    }
    UnheldNothing(s, t, seen);
    hide Visit, Sound;
    assert sight.Present? ==> forall c :: c in t.queue ==> !Matches(c, sight.relation);
    forall k | k == New || k == Schema
      ensures Has(u.queue, k) == Has(t.queue, k)
    {
      if Has(t.queue, k) {
        var c :| c in t.queue && c.kind == k;
        assert c in u.queue;
      }
    }
  }

  ghost function VisitAll(s: Scope, t: Track, sights: seq<Sight>): Track
    decreases |sights|
  {
    if sights == [] then t else VisitAll(s, Visit(s, t, sights[0]).track, sights[1..])
  }

  /** Progress: polls that go on showing the same finding queue it, at exactly the poll that
      completes `confirm_polls` votes, counting the votes that stood before. */
  lemma {:induction false} AgreementQueues(s: Scope, t: Track, sights: seq<Sight>, shape: Shape, seen: seq<bool>, j: nat)
    requires Sound(s, t, seen) && Fenced(shape.kind) && sights != [] && Votes(s, t, sights[0], shape)
    requires forall i :: 0 <= i < |sights| ==> Alike(sights[0], sights[i])
    requires shape.kind.Schema? ==> !Has(t.queue, Recreated)
    requires |sights| == (var n := Standing(t, sights[0], shape, Tally(t.streak, shape)); if n < s.polls then s.polls - n else 1)
    requires j < |sights|
    ensures Adds(Visit(s, VisitAll(s, t, sights[..j]), sights[j]).added, shape) <==> j == |sights| - 1
    decreases |sights|
  {
    hide Sound, Visit, Votes, Standing, Tally;
    VisitTells(s, t, sights[0], shape, seen);
    if j == 0 {
      assert sights[..0] == [];
      QueuesNow(s, t, sights[0], shape);
    } else {
      var u := Visit(s, t, sights[0]).track;
      VisitSound(s, t, sights[0], seen);
      VotesAgain(s, t, sights[0], sights[1], shape, seen);
      assert sights[..j][1..] == sights[1..][..j - 1] && sights[..j][0] == sights[0] && sights[1..][j - 1] == sights[j];
      AgreementQueues(s, u, sights[1..], shape, seen + [sights[0].Present?], j - 1);
    }
  }

  lemma QueuesNow(s: Scope, t: Track, sight: Sight, shape: Shape)
    requires Votes(s, t, sight, shape)
    ensures Queues(s, t, sight, shape, Tally(t.streak, shape)) <==> Standing(t, sight, shape, Tally(t.streak, shape)) + 1 >= s.polls
  {
  }

  lemma ConcludingKind(t: Track, c: Change, polls: nat, learn: Option<Relation>)
    ensures forall k :: Has(Concluding(t, c, polls, learn).added, k) ==> k == c.kind
  {
  }

  lemma PresenceNoDrop(s: Scope, t: Track, current: Relation, previous: Relation, replaced: Option<Relation>, busy: bool, lsn: int)
    ensures !Has(FirstSeen(s, t, current, lsn).added, Dropped)
    ensures !Has(Compared(s, t, current, previous, replaced, busy, lsn).added, Dropped)
  {
    ConcludingKind(t, RecreatedChange(s.name, None, current, lsn), s.polls, Some(current));
    ConcludingKind(t, RecreatedChange(s.name, replaced, current, lsn), s.polls, Some(current));
    ConcludingKind(t, SchemaChange(s.name, previous, current, lsn), s.polls, Some(current));
    hide Concluding;
  }

  lemma DropAdded(s: Scope, t: Track, sight: Sight)
    ensures Has(Visit(s, t, sight).added, Dropped) ==> sight.Missing? && !Has(t.queue, Dropped)
  {
    hide Concluding, Retained, FirstSeen, Compared, Welcomed;
    if sight.Present? {
      var current, retained := Projected(t, sight.relation), Retained(t.queue, t.known);
      var mid := Welcomed(t, current, sight.lsn);
      PresenceNoDrop(s, mid, current, if t.known.Some? then t.known.value else current, if retained.Some? then retained else t.known,
        sight.fenced || HasFenced(mid.queue), sight.lsn);
    } else {
      UnsettledTells(t, sight);
    }
  }

  /** A drop an action reports is one it put into the queue. */
  lemma DropIsNew(s: Scope, t: Track, a: Action, seen: seq<bool>)
    requires Sound(s, t, seen)
    ensures var step := Act(s, t, a); Has(step.added, Dropped) <==> Has(step.track.queue, Dropped) && !Has(t.queue, Dropped)
  {
    if a.Polls? && s.name in a.visible {
      var sight := SightOf(a, s.name);
      var step := Visit(s, t, sight);
      forall c
        ensures c in step.track.queue <==>
          c in step.added || (if sight.Present? && Looks(s, t, sight) then Kept(t, sight, c) else c in t.queue)
      {
        QueueTells(s, t, sight, seen, c);
      }
      DropAdded(s, t, sight);
      hide Visit, Sound;
    } else {
      hide Sound, Retained;
    }
  }

  // ---------------------------------------------------------------------------
  // What the other actions do
  // ---------------------------------------------------------------------------

  /** A settled schema change that carries a relation. */
  predicate Carries(c: Change, n: Name) {
    c.name == n && c.kind.Schema? && c.newRelation.Some?
  }

  /** The relation of the last such change becomes known, and without one nothing does. */
  lemma {:induction false} AdoptedTells(known: Option<Relation>, changes: seq<Change>, n: Name, i: nat)
    requires i <= |changes| && forall j :: i <= j < |changes| ==> !Carries(changes[j], n)
    ensures i == 0 ==> Adopted(known, changes, n) == known
    ensures i > 0 && Carries(changes[i - 1], n) ==> Adopted(known, changes, n) == changes[i - 1].newRelation
    decreases |changes|
  {
    if i < |changes| { AdoptedTells(known, changes[..|changes| - 1], n, i); }
  }

  /** A settlement takes out exactly the settled changes and, unless a later poll showed more,
      adopts the relation of the last settled schema change (`AdoptedTells`); forgetting leaves
      nothing but whether the relation was gone; a replaced recreate gives way to one for the new
      generation at the position of the old one; and a relation once replicated stays so. */
  lemma ActTells(s: Scope, t: Track, a: Action, c: Change)
    ensures !a.Polls? && !a.Forgets? ==> (a.Replaces? && t.known.Some? && a.change in t.queue) || Act(s, t, a).track.streak == t.streak
    ensures a.Settles? ==>
      (c in Act(s, t, a).track.queue <==> c in t.queue && c !in a.changes) && Act(s, t, a).added == [] &&
      Act(s, t, a).track.known == if a.advanced then t.known else Adopted(t.known, a.changes, s.name)
    ensures a.Forgets? && a.name == s.name ==> Act(s, t, a) == Step(Track(None, t.gone, false, None, []), [])
    ensures (a.Forgets? && a.name != s.name) || (a.Replicates? && s.name !in a.names) || (a.Polls? && s.name !in a.visible) ==>
      Act(s, t, a) == Step(t, [])
    ensures a.Replicates? && s.name in a.names ==> Act(s, t, a) == Step(t.(replicated := true), [])
    ensures a.Replaces? && a.change.name == s.name && a.change in t.queue && a.change.kind.Recreated? && t.known.Some? ==>
      Act(s, t, a).track.known == Some(t.known.value.(identity := a.identity)) &&
      (exists next :: Act(s, t, a).added == [next] && next.kind.Recreated? && next.name == s.name && next.newIdentity == Some(a.identity) && next.lsn == a.change.lsn) &&
      (c in Act(s, t, a).track.queue <==> c in Act(s, t, a).added || (c in t.queue && !c.kind.Recreated?))
  {
    hide Visit, Retained, Adopted;
    if a.Replaces? && t.known.Some? {
      var next := Replacement(t, a.change, a.identity);
      assert Replaced(t, a.change, a.identity).added == [next];
    }
  }
}
