/** The per-table half of the END check: a greedy allowance walked over the declared
    collections in the order the marker lists them.  Which markers it accepts, and when
    that depends on the order. */
module EndMarker {
  import opened Options
  import opened Records
  import opened AssemblerSpec

  type Collections = seq<(string, int)>

  ghost predicate Entries(events: seq<Event>, declared: Collections) {
    forall i :: 0 <= i < |declared| ==> EntryAgrees(events, declared, i)
  }

  /** Every declared collection states its observed count, or had no row events. */
  ghost predicate Matched(events: seq<Event>, declared: Collections) {
    forall d :: d in declared ==> Tally(events, d.0) == d.1 || Tally(events, d.0) == 0
  }

  ghost predicate Reorders(a: Collections, b: Collections) {
    multiset(a) == multiset(b)
  }

  /** What an unseen collection charges, positive charges only. */
  ghost function Charges(events: seq<Event>, declared: Collections): int {
    if declared == [] then 0 else
      var last := declared[|declared| - 1];
      Charges(events, declared[..|declared| - 1])
      + if Tally(events, last.0) == 0 && last.1 > 0 then last.1 else 0
  }

  lemma {:induction false} UnseenAppend(events: seq<Event>, a: Collections, b: Collections)
    ensures Unseen(events, a + b) == Unseen(events, a) + Unseen(events, b)
    ensures Charges(events, a + b) == Charges(events, a) + Charges(events, b)
    decreases |b|
  {
    if b == [] {
      assert a + b == a;
    } else {
      assert (a + b)[..|a + b| - 1] == a + b[..|b| - 1];
      UnseenAppend(events, a, b[..|b| - 1]);
    }
  }

  /** Reordering changes neither sum. */
  lemma {:induction false} UnseenReorders(events: seq<Event>, a: Collections, b: Collections)
    requires Reorders(a, b)
    ensures Unseen(events, a) == Unseen(events, b) && Charges(events, a) == Charges(events, b)
    decreases |a|
  {
    if a == [] {
      assert |b| == |multiset(b)| == 0;
    } else {
      var x := a[|a| - 1];
      assert a == a[..|a| - 1] + [x];
      assert x in multiset(b);
      var i :| 0 <= i < |b| && b[i] == x;
      var rest := b[..i] + b[i + 1..];
      assert b == b[..i] + ([x] + b[i + 1..]);
      UnseenAppend(events, b[..i], [x] + b[i + 1..]);
      UnseenAppend(events, [x], b[i + 1..]);
      UnseenAppend(events, b[..i], b[i + 1..]);
      UnseenAppend(events, a[..|a| - 1], [x]);
      assert multiset(rest) == multiset(b) - multiset{x};
      assert multiset(a[..|a| - 1]) == multiset(a) - multiset{x};
      UnseenReorders(events, a[..|a| - 1], rest);
    }
  }

  lemma {:induction false} ChargesGrow(events: seq<Event>, declared: Collections, i: nat)
    requires i <= |declared|
    ensures Unseen(events, declared[..i]) <= Charges(events, declared[..i]) <= Charges(events, declared)
    ensures 0 <= Charges(events, declared[..i])
    decreases |declared|
  {
    if declared != [] {
      var front := declared[..|declared| - 1];
      if i == |declared| {
        assert declared[..i] == declared;
        ChargesGrow(events, front, |front|);
        assert front[..|front|] == front;
      } else {
        assert declared[..i] == front[..i];
        ChargesGrow(events, front, i);
      }
    }
  }

  /** Acceptance bounds the total: the last collection charged saw it. */
  lemma {:induction false} EntriesBoundTotal(events: seq<Event>, declared: Collections)
    requires Entries(events, declared)
    ensures Matched(events, declared) && Unseen(events, declared) <= Messages(events)
    decreases |declared|
  {
    if declared != [] {
      var n := |declared| - 1;
      var front := declared[..n];
      forall i | 0 <= i < n
        ensures EntryAgrees(events, front, i)
      {
        assert EntryAgrees(events, declared, i) && declared[..i + 1] == front[..i + 1];
      }
      EntriesBoundTotal(events, front);
      assert EntryAgrees(events, declared, n) && declared[..n + 1] == declared;
      assert forall d :: d in declared ==> d in front || d == declared[n];
    }
  }

  /** The verdict on declared counts that are never negative: every observed count is
      stated and the unseen collections fit the logical messages. No order involved. */
  lemma AcceptsIffTotalFits(events: seq<Event>, declared: Collections)
    requires forall d :: d in declared ==> d.1 >= 0
    ensures Entries(events, declared) <==> Matched(events, declared) && Unseen(events, declared) <= Messages(events)
  {
    if Entries(events, declared) {
      EntriesBoundTotal(events, declared);
    }
    if Matched(events, declared) && Unseen(events, declared) <= Messages(events) {
      NonNegativeCharges(events, declared);
      forall i | 0 <= i < |declared|
        ensures EntryAgrees(events, declared, i)
      {
        ChargesGrow(events, declared, i + 1);
        assert declared[i] in declared;
      }
    }
  }

  lemma {:induction false} NonNegativeCharges(events: seq<Event>, declared: Collections)
    requires forall d :: d in declared ==> d.1 >= 0
    ensures Unseen(events, declared) == Charges(events, declared)
  {
    if declared != [] {
      NonNegativeCharges(events, declared[..|declared| - 1]);
    }
  }

  /** With no negative count the whole END check ignores the order of the collections. */
  lemma OrderIrrelevant(events: seq<Event>, a: Collections, b: Collections)
    requires Reorders(a, b) && forall d :: d in a ==> d.1 >= 0
    ensures CollectionsAgree(events, a) <==> CollectionsAgree(events, b)
  {
    SameMembers(a, b);
    AcceptsIffTotalFits(events, a);
    AcceptsIffTotalFits(events, b);
    UnseenReorders(events, a, b);
    assert Entries(events, a) <==> Entries(events, b);
    forall t
      ensures Declares(a, t) <==> Declares(b, t)
    {
      DeclaresReorders(a, b, t);
      DeclaresReorders(b, a, t);
    }
  }

  lemma SameMembers(a: Collections, b: Collections)
    requires Reorders(a, b)
    ensures forall d :: d in a <==> d in b
  {
    assert forall d :: d in a <==> d in multiset(a);
    assert forall d :: d in b <==> d in multiset(b);
  }

  lemma DeclaresReorders(a: Collections, b: Collections, t: string)
    requires Reorders(a, b)
    ensures Declares(a, t) ==> Declares(b, t)
  {
    SameMembers(a, b);
    if i :| 0 <= i < |a| && a[i].0 == t {
      assert a[i] in b;
    }
  }

  /** Nothing forbids a negative declared count, and then the order decides: the same
      two collections pass one way round and fail the other. */
  lemma NegativeCountsDependOnOrder()
    ensures var a, b := [("a", -1), ("b", 1)], [("b", 1), ("a", -1)];
      Reorders(a, b) && Entries([], a) && !Entries([], b)
  {
    var a: Collections, b: Collections := [("a", -1), ("b", 1)], [("b", 1), ("a", -1)];
    hide Unseen;
    OneMore([], ("a", -1));
    OneMore([("a", -1)], ("b", 1));
    OneMore([], ("b", 1));
    var one: Collections, two: Collections := [("a", -1)], [("b", 1)];
    assert [] + one == a[..1] && one + two == a[..2] && [] + two == b[..1] && one == [] + one;
    assert Unseen([], a[..1]) == -1 && Unseen([], a[..2]) == 0 && Unseen([], b[..1]) == 1;
    assert EntryAgrees([], a, 0) && EntryAgrees([], a, 1) && !EntryAgrees([], b, 0);
    assert multiset(a) == multiset{("a", -1), ("b", 1)} == multiset(b);
  }

  lemma OneMore(declared: Collections, d: (string, int))
    ensures Unseen([], []) == 0 && Tally([], d.0) == 0 && Messages([]) == 0
    ensures Unseen([], declared + [d]) == Unseen([], declared) + d.1
  {
    assert (declared + [d])[..|declared|] == declared;
  }

  ghost function Select(declared: Collections, positive: bool): Collections {
    if declared == [] then [] else
      var last := declared[|declared| - 1];
      Select(declared[..|declared| - 1], positive) + if (last.1 > 0) == positive then [last] else []
  }

  lemma {:induction false} SelectSplits(declared: Collections)
    ensures Reorders(Select(declared, true) + Select(declared, false), declared)
    ensures forall d :: d in Select(declared, true) ==> d.1 > 0
    ensures forall d :: d in Select(declared, false) ==> d.1 <= 0
  {
    if declared != [] {
      SelectSplits(declared[..|declared| - 1]);
      assert declared == declared[..|declared| - 1] + [declared[|declared| - 1]];
    }
  }

  /** Whatever the counts: every order of the collections is accepted exactly when the
      observed counts are stated and the positive unseen charges fit the messages. */
  lemma AcceptedInEveryOrder(events: seq<Event>, declared: Collections)
    ensures (forall d :: Reorders(d, declared) ==> Entries(events, d))
      <==> Matched(events, declared) && Charges(events, declared) <= Messages(events)
  {
    hide Charges, Messages, Entries, Matched, Reorders;
    if forall d :: Reorders(d, declared) ==> Entries(events, d) { PositivesFirst(events, declared); }
    if Matched(events, declared) && Charges(events, declared) <= Messages(events) {
      forall d | Reorders(d, declared)
        ensures Entries(events, d)
      {
        FitsAnyOrder(events, d, declared);
      }
    }
  }

  /** The order that puts the positive counts first is the hardest. */
  lemma PositivesFirst(events: seq<Event>, declared: Collections)
    requires forall d :: Reorders(d, declared) ==> Entries(events, d)
    ensures Matched(events, declared) && Charges(events, declared) <= Messages(events)
  {
    hide Charges, Messages, Select, Unseen, Tally;
    SelectSplits(declared);
    var pos, rest := Select(declared, true), Select(declared, false);
    var order := pos + rest;
    assert Entries(events, order);
    EntriesBoundTotal(events, order);
    SameMembers(order, declared);
    UnseenReorders(events, order, declared);
    UnseenAppend(events, pos, rest);
    forall i | 0 <= i < |pos|
      ensures EntryAgrees(events, pos, i)
    {
      assert EntryAgrees(events, order, i) && order[..i + 1] == pos[..i + 1];
    }
    EntriesBoundTotal(events, pos);
    NonNegativeCharges(events, pos);
    NoCharges(events, rest);
  }

  lemma FitsAnyOrder(events: seq<Event>, d: Collections, declared: Collections)
    requires Reorders(d, declared) && Matched(events, declared) && Charges(events, declared) <= Messages(events)
    ensures Entries(events, d)
  {
    hide Charges, Messages, Unseen, Tally;
    SameMembers(d, declared);
    UnseenReorders(events, d, declared);
    forall i | 0 <= i < |d|
      ensures EntryAgrees(events, d, i)
    {
      ChargesGrow(events, d, i + 1);
      assert d[i] in d;
    }
  }

  lemma {:induction false} NoCharges(events: seq<Event>, declared: Collections)
    requires forall d :: d in declared ==> d.1 <= 0
    ensures Charges(events, declared) == 0
  {
    if declared != [] {
      NoCharges(events, declared[..|declared| - 1]);
    }
  }

  /** And some order is accepted exactly when the observed counts are stated and the total
      fits; so the verdict depends on the order exactly when the total fits but the
      positive charges alone do not. */
  lemma AcceptedInSomeOrder(events: seq<Event>, declared: Collections)
    ensures (exists d :: Reorders(d, declared) && Entries(events, d))
      <==> Matched(events, declared) && Unseen(events, declared) <= Messages(events)
  {
    if d :| Reorders(d, declared) && Entries(events, d) {
      EntriesBoundTotal(events, d);
      SameMembers(d, declared);
      UnseenReorders(events, d, declared);
    }
    if Matched(events, declared) && Unseen(events, declared) <= Messages(events) {
      SelectSplits(declared);
      var pos, rest := Select(declared, true), Select(declared, false);
      var order := rest + pos;
      assert multiset(order) == multiset(pos + rest);
      SameMembers(order, declared);
      UnseenReorders(events, order, declared);
      NegativesFirst(events, rest, pos);
    }
  }

  lemma NegativesFirst(events: seq<Event>, rest: Collections, pos: Collections)
    requires (forall d :: d in rest ==> d.1 <= 0) && (forall d :: d in pos ==> d.1 > 0)
    requires Matched(events, rest + pos) && Unseen(events, rest + pos) <= Messages(events)
    ensures Entries(events, rest + pos)
  {
    hide Tally, Messages;
    var order := rest + pos;
    forall i | 0 <= i < |order|
      ensures EntryAgrees(events, order, i)
    {
      assert order[i] in order;
      if i < |rest| {
        assert order[..i + 1] == rest[..i + 1];
        NoCharges(events, rest);
        ChargesGrow(events, rest, i + 1);
      } else {
        var k := i + 1 - |rest|;
        assert order[..i + 1] == rest + pos[..k] && order == order[..i + 1] + pos[k..];
        UnseenAppend(events, order[..i + 1], pos[k..]);
        NonNegativeCharges(events, pos[k..]);
        ChargesGrow(events, pos[k..], 0);
        assert pos[k..][..0] == [];
      }
    }
  }

  // ---------------------------------------------------------------------------
  // What the counts count
  // ---------------------------------------------------------------------------

  /** The positions of the row events of a table, and of the events that are no rows. */
  ghost function RowsOf(events: seq<Event>, table: string): set<nat> {
    set i: nat | i < |events| && (events[i].rec.kind.Data? || events[i].rec.kind.Truncate?) && TableKey(events[i].rec) == table
  }

  ghost function NoRows(events: seq<Event>): set<nat> {
    set i: nat | i < |events| && !events[i].rec.kind.Data? && !events[i].rec.kind.Truncate?
  }

  lemma {:induction false} TallyCounts(events: seq<Event>, table: string)
    requires table != ""
    ensures Tally(events, table) == |RowsOf(events, table)|
  {
    if events == [] {
      assert RowsOf(events, table) == {};
    } else {
      var front, n := events[..|events| - 1], |events| - 1;
      TallyCounts(front, table);
      var last := events[n].rec;
      assert RowsOf(events, table) == RowsOf(front, table) +
        if IsRow(last) && TableKey(last) == table then {n} else {};
      assert n !in RowsOf(front, table);
    }
  }

  lemma {:induction false} MessagesCount(events: seq<Event>)
    ensures Messages(events) == |NoRows(events)|
  {
    hide TableKey;
    if events == [] {
      assert NoRows(events) == {};
    } else {
      var front, n := events[..|events| - 1], |events| - 1;
      MessagesCount(front);
      NoRowsMore(events);
    }
  }

  lemma NoRowsMore(events: seq<Event>)
    requires events != []
    ensures var front, n := events[..|events| - 1], |events| - 1;
      |NoRows(events)| == |NoRows(front)| + if IsRow(events[n].rec) then 0 else 1
  {
    var front, n := events[..|events| - 1], |events| - 1;
    assert NoRows(events) == NoRows(front) + if IsRow(events[n].rec) then {} else {n};
    assert n !in NoRows(front);
  }

  /** The commit position is END's own where it has one, and otherwise one no event is past. */
  lemma CommitPosition(end: Record, events: seq<Event>)
    ensures end.lsn.Some? && end.lsn.value > 0 ==> CommitLsn(end, events) == end.lsn.value
    ensures end.lsn.None? || end.lsn.value == 0 ==>
      (forall e :: e in events ==> LsnOrZero(e.rec) <= CommitLsn(end, events)) &&
      (CommitLsn(end, events) == 0 || exists e :: e in events && LsnOrZero(e.rec) == CommitLsn(end, events))
  {
    MaxLsnReached(events);
  }

  /** The position a transaction reaches: no event is past it, and one is there. */
  lemma {:induction false} MaxLsnReached(events: seq<Event>)
    ensures forall e :: e in events ==> LsnOrZero(e.rec) <= MaxLsn(events)
    ensures MaxLsn(events) == 0 || exists e :: e in events && LsnOrZero(e.rec) == MaxLsn(events)
  {
    if events != [] {
      var front, last := events[..|events| - 1], events[|events| - 1];
      MaxLsnReached(front);
      assert events == front + [last] && last in events;
      assert forall e :: e in events ==> e in front || e == last;
      assert forall e :: e in front ==> e in events;
    }
  }

  /** Delivered are the rows and snapshot reads the destination materializes. */
  ghost function DeliveredAt(events: seq<Event>): set<nat> {
    set i: nat | i < |events| && !events[i].rec.ignored &&
      (events[i].rec.kind.Data? || events[i].rec.kind.Truncate? || events[i].rec.kind.Snapshot?)
  }

  lemma {:induction false} DeliveredCounts(events: seq<Event>)
    ensures Delivered(events) == |DeliveredAt(events)|
  {
    if events == [] {
      assert DeliveredAt(events) == {};
    } else {
      var front, n := events[..|events| - 1], |events| - 1;
      DeliveredCounts(front);
      assert DeliveredAt(events) == DeliveredAt(front) + if IsDeliveryData(events[n].rec) then {n} else {};
      assert n !in DeliveredAt(front);
    }
  }

  /** Every refusal a record of the unit carries is reported, and no other. */
  lemma {:induction false} RefusalsReported(events: seq<Event>, refusal: string)
    ensures refusal in Refusals(events) <==> exists e :: e in events && e.rec.refusal == Some(refusal)
  {
    if events != [] {
      var front, last := events[..|events| - 1], events[|events| - 1];
      RefusalsReported(front, refusal);
      assert events == front + [last] && last in events;
      assert forall e :: e in events <==> e in front || e == last;
    }
  }
}
