/** The durable cursor of a backfill run (src/cdc_flight/backfill.py): whatever order,
    batching or repetition chunks arrive in, it is the greatest key ever presented. */
module CursorStore {
  import opened Options
  import opened Sequences
  import opened CursorOrder
  import opened CursorMeaning

  type Cursor = Option<Json>

  predicate Readable(c: Cursor) {
    c.Some? ==> ReadOrder(c.value).Some?
  }

  /** Neither missing cursor nor a smaller one is above `d`. */
  predicate AtMost(c: Cursor, d: Cursor) {
    c.Some? && ReadOrder(c.value).Some? ==>
      d.Some? && ReadOrder(d.value).Some? && Cmp(ReadOrder(c.value).value, ReadOrder(d.value).value) <= 0
  }

  lemma AtMostTransitive(a: Cursor, b: Cursor, c: Cursor)
    requires AtMost(a, b) && AtMost(b, c)
    ensures AtMost(a, c)
  {
    if a.Some? && ReadOrder(a.value).Some? {
      CmpTransitive(ReadOrder(a.value).value, ReadOrder(b.value).value, ReadOrder(c.value).value);
    }
  }

  lemma AtMostItself(a: Cursor)
    ensures AtMost(a, a)
  {
    if a.Some? && ReadOrder(a.value).Some? {
      CmpTotal(ReadOrder(a.value).value, ReadOrder(a.value).value);
    }
  }

  /** One of the candidates, and none is above it. */
  predicate Greatest(w: Cursor, candidates: seq<Cursor>) {
    (w in candidates || (w.None? && forall c :: c in candidates ==> c.None?)) &&
    Readable(w) && forall c :: c in candidates ==> AtMost(c, w)
  }

  datatype Choice = Chosen(winner: Cursor) | Unreadable

  /** `_max_cursor_json`: an unreadable candidate refuses the whole comparison. */
  method MaxCursor(candidates: seq<Cursor>) returns (choice: Choice)
    ensures choice.Unreadable? <==> exists c :: c in candidates && !Readable(c)
    ensures choice.Chosen? ==> Greatest(choice.winner, candidates)
  {
    var winner: Cursor := None;
    for i := 0 to |candidates|
      invariant forall c :: c in candidates[..i] ==> Readable(c)
      invariant Greatest(winner, candidates[..i])
    {
      var candidate := candidates[i];
      assert candidates[..i + 1] == candidates[..i] + [candidate];
      assert candidate in candidates;
      if candidate.None? { continue; }
      if ReadOrder(candidate.value).None? { return Unreadable; }
      if winner.None? || Cmp(ReadOrder(candidate.value).value, ReadOrder(winner.value).value) > 0 {
        Overtakes(winner, candidate, candidates[..i]);
        winner := candidate;
      }
    }
    assert candidates[..|candidates|] == candidates;
    return Chosen(winner);
  }

  lemma Overtakes(winner: Cursor, candidate: Cursor, before: seq<Cursor>)
    requires Greatest(winner, before) && candidate.Some? && ReadOrder(candidate.value).Some?
    requires winner.None? || Cmp(ReadOrder(candidate.value).value, ReadOrder(winner.value).value) > 0
    ensures Greatest(candidate, before + [candidate])
  {
    AtMostItself(candidate);
    if winner.Some? {
      CmpTotal(ReadOrder(candidate.value).value, ReadOrder(winner.value).value);
    }
    forall c | c in before
      ensures AtMost(c, candidate)
    {
      AtMostTransitive(c, winner, candidate);
    }
  }

  // ---------------------------------------------------------------------------
  // What was presented
  // ---------------------------------------------------------------------------

  function Stored(key: Key): Cursor {
    Some(Canonical(key))
  }

  /** `c` stands for the greatest of `keys`. */
  ghost predicate Leads(c: Cursor, keys: seq<Key>) {
    if keys == [] then c.None? else
    (exists k :: k in keys && c == Stored(k)) && Readable(c) && forall k :: k in keys ==> AtMost(Stored(k), c)
  }

  /** The greatest of two leaders and a third leads all their keys. */
  lemma LeadsTogether(w: Cursor, a: Cursor, b: Cursor, c: Cursor, keys: seq<Key>, more: seq<Key>)
    requires Leads(a, keys) && Leads(b, keys) && Leads(c, more) && Greatest(w, [a, b, c])
    requires forall k :: k in keys + more ==> Storable(k)
    ensures Leads(w, keys + more)
  {
    hide Storable, ReadOrder, Canonical;
    if keys + more != [] {
      forall k | k in keys + more
        ensures AtMost(Stored(k), w)
      {
        if k in keys {
          AtMostTransitive(Stored(k), a, w);
        } else {
          AtMostTransitive(Stored(k), c, w);
        }
      }
    }
  }

  lemma StorableReads(k: Key)
    requires Storable(k)
    ensures Readable(Stored(k)) && ReadOrder(Canonical(k)) == Some(KeyOrder(k))
  {
    StoredOrder(k);
  }

  /** A delivered row of a run. */
  datatype Delivery = Delivery(run: string, key: Key)

  function KeysOf(events: seq<Delivery>, run: string): seq<Key> {
    if events == [] then [] else
      var last := events[|events| - 1];
      KeysOf(events[..|events| - 1], run) + if last.run == run then [last.key] else []
  }

  /** What one commit gathered for a run. */
  datatype Batch = Batch(maximum: Json, order: Ord, rows: nat, chunks: nat)

  /** The greatest of the keys in delivered order, and how many they are. */
  ghost predicate Summarizes(b: Batch, keys: seq<Key>) {
    b.rows == |keys| && (exists k :: k in keys && b.maximum == Canonical(k) && b.order == KeyOrder(k)) &&
    forall k :: k in keys ==> Cmp(KeyOrder(k), b.order) <= 0
  }

  ghost predicate Gathers(byRun: map<string, Batch>, events: seq<Delivery>) {
    forall run :: if run in byRun then Summarizes(byRun[run], KeysOf(events, run)) else KeysOf(events, run) == []
  }

  predicate Delivers(unit: seq<Delivery>, run: string) {
    exists e :: e in unit && e.run == run
  }

  /** In how many units the run has a row. */
  function UnitsWith(units: seq<seq<Delivery>>, run: string): nat {
    if units == [] then 0
    else UnitsWith(units[..|units| - 1], run) + if Delivers(units[|units| - 1], run) then 1 else 0
  }

  ghost predicate Chunked(byRun: map<string, Batch>, units: seq<seq<Delivery>>) {
    forall run :: run in byRun ==> byRun[run].chunks == UnitsWith(units, run)
  }

  /** The first half of `commit_progress`: for each run the greatest key by delivered order,
      the number of rows, and the number of units. */
  method Gather(units: seq<seq<Delivery>>) returns (byRun: map<string, Batch>)
    ensures Gathers(byRun, Join(units)) && Chunked(byRun, units)
  {
    hide Gathers, Chunked, KeysOf, UnitsWith;
    byRun := map[];
    Nothing();
    assert units[..0] == [];
    for i := 0 to |units|
      invariant Gathers(byRun, Join(units[..i])) && Chunked(byRun, units[..i])
    {
      assert units[..i + 1][..i] == units[..i];
      byRun := GatherUnit(byRun, units[..i], units[i]);
      assert units[..i] + [units[i]] == units[..i + 1];
    }
    assert units[..|units|] == units;
  }

  lemma Nothing()
    ensures Gathers(map[], Join([])) && Chunked(map[], [])
  {
  }

  /** One unit: every row, then one more chunk for each run it touched. */
  method GatherUnit(before: map<string, Batch>, ghost done: seq<seq<Delivery>>, unit: seq<Delivery>) returns (byRun: map<string, Batch>)
    requires Gathers(before, Join(done)) && Chunked(before, done)
    ensures Gathers(byRun, Join(done + [unit])) && Chunked(byRun, done + [unit])
  {
    hide Gathers, Chunked, KeysOf, UnitsWith, Join;
    byRun := before;
    ghost var events := Join(done);
    assert events + unit[..0] == events;
    for j := 0 to |unit|
      invariant Gathers(byRun, events + unit[..j]) && Chunked(byRun, done)
    {
      assert events + unit[..j] + [unit[j]] == events + unit[..j + 1];
      NewcomerUnchunked(byRun, done, events, unit[..j], unit[j]);
      GatherOne(byRun, events + unit[..j], unit[j]);
      byRun := byRun[unit[j].run := Grown(byRun, unit[j])];
    }
    assert unit[..|unit|] == unit;
    JoinOne(done, unit);
    ChunkMore(byRun, done, unit);
    byRun := Rechunked(byRun, unit);
  }

  function Rechunked(byRun: map<string, Batch>, unit: seq<Delivery>): map<string, Batch> {
    map run | run in byRun :: if Delivers(unit, run) then byRun[run].(chunks := byRun[run].chunks + 1) else byRun[run]
  }

  lemma JoinOne(done: seq<seq<Delivery>>, unit: seq<Delivery>)
    ensures Join(done + [unit]) == Join(done) + unit
  {
    assert (done + [unit])[..|done|] == done;
  }

  lemma ChunkMore(byRun: map<string, Batch>, done: seq<seq<Delivery>>, unit: seq<Delivery>)
    requires Gathers(byRun, Join(done) + unit) && Chunked(byRun, done)
    ensures Gathers(Rechunked(byRun, unit), Join(done) + unit) && Chunked(Rechunked(byRun, unit), done + [unit])
  {
    hide Gathers, Chunked, Rechunked, Join;
    ChunksApart(byRun, Join(done) + unit, unit);
    UnitCounted(byRun, done, unit);
  }

  lemma ChunksApart(byRun: map<string, Batch>, events: seq<Delivery>, unit: seq<Delivery>)
    requires Gathers(byRun, events)
    ensures Gathers(Rechunked(byRun, unit), events)
  {
    hide KeysOf, Cmp, Canonical, KeyOrder, Delivers, Summarizes;
    forall run | run in byRun
      ensures Summarizes(Rechunked(byRun, unit)[run], KeysOf(events, run))
    {
      Rechunk(byRun[run], Rechunked(byRun, unit)[run], KeysOf(events, run));
    }
  }

  lemma Rechunk(b: Batch, c: Batch, keys: seq<Key>)
    requires Summarizes(b, keys) && c == b.(chunks := c.chunks)
    ensures Summarizes(c, keys)
  {
  }

  lemma UnitCounted(byRun: map<string, Batch>, done: seq<seq<Delivery>>, unit: seq<Delivery>)
    requires Chunked(byRun, done)
    ensures Chunked(Rechunked(byRun, unit), done + [unit])
  {
    assert (done + [unit])[..|done|] == done;
  }

  /** A run met for the first time was in no earlier unit. */
  lemma NewcomerUnchunked(byRun: map<string, Batch>, done: seq<seq<Delivery>>, events: seq<Delivery>, more: seq<Delivery>, e: Delivery)
    requires events == Join(done) && Gathers(byRun, events + more) && Chunked(byRun, done)
    ensures Chunked(byRun[e.run := Grown(byRun, e)], done)
  {
    hide Cmp, Canonical, KeyOrder;
    if e.run !in byRun {
      KeysAppend(events, more, e.run);
      NoKeysNoUnits(done, e.run);
    }
  }

  lemma {:induction false} KeysAppend(a: seq<Delivery>, b: seq<Delivery>, run: string)
    ensures KeysOf(a + b, run) == KeysOf(a, run) + KeysOf(b, run)
    decreases |b|
  {
    if b == [] {
      assert a + b == a;
    } else {
      assert (a + b)[..|a + b| - 1] == a + b[..|b| - 1];
      KeysAppend(a, b[..|b| - 1], run);
    }
  }

  lemma {:induction false} DeliveredKeys(unit: seq<Delivery>, run: string)
    ensures Delivers(unit, run) <==> KeysOf(unit, run) != []
  {
    if unit != [] {
      var front, last := unit[..|unit| - 1], unit[|unit| - 1];
      DeliveredKeys(front, run);
      assert unit == front + [last] && last in unit;
    }
  }

  lemma {:induction false} NoKeysNoUnits(units: seq<seq<Delivery>>, run: string)
    requires KeysOf(Join(units), run) == []
    ensures UnitsWith(units, run) == 0
    decreases |units|
  {
    if units != [] {
      var front, last := units[..|units| - 1], units[|units| - 1];
      KeysAppend(Join(front), last, run);
      NoKeysNoUnits(front, run);
      DeliveredKeys(last, run);
    }
  }

  function Grown(byRun: map<string, Batch>, e: Delivery): Batch {
    if e.run in byRun then More(byRun[e.run], e.key) else Batch(Canonical(e.key), KeyOrder(e.key), 1, 0)
  }

  function More(b: Batch, key: Key): Batch {
    if Cmp(KeyOrder(key), b.order) > 0 then Batch(Canonical(key), KeyOrder(key), b.rows + 1, b.chunks)
    else b.(rows := b.rows + 1)
  }

  lemma OneSummarizes(key: Key)
    ensures Summarizes(Batch(Canonical(key), KeyOrder(key), 1, 0), [key])
  {
    hide Canonical, KeyOrder;
    assert key in [key];
    CmpTotal(KeyOrder(key), KeyOrder(key));
  }

  lemma MoreSummarizes(b: Batch, keys: seq<Key>, key: Key)
    requires Summarizes(b, keys)
    ensures Summarizes(More(b, key), keys + [key])
  {
    hide Canonical, KeyOrder, Cmp;
    CmpTotal(KeyOrder(key), b.order);
    if Cmp(KeyOrder(key), b.order) > 0 {
      CmpTotal(KeyOrder(key), KeyOrder(key));
      forall k | k in keys
        ensures Cmp(KeyOrder(k), KeyOrder(key)) <= 0
      {
        CmpTransitive(KeyOrder(k), b.order, KeyOrder(key));
      }
      assert key in keys + [key];
    } else {
      var k :| k in keys && b.maximum == Canonical(k) && b.order == KeyOrder(k);
      assert k in keys + [key];
    }
  }

  lemma GatherOne(byRun: map<string, Batch>, events: seq<Delivery>, e: Delivery)
    requires Gathers(byRun, events)
    ensures Gathers(byRun[e.run := Grown(byRun, e)], events + [e])
  {
    hide Summarizes, Canonical, KeyOrder, Cmp;
    assert (events + [e])[..|events|] == events;
    var keys := KeysOf(events, e.run);
    if e.run in byRun {
      MoreSummarizes(byRun[e.run], keys, e.key);
    } else {
      OneSummarizes(e.key);
      assert keys + [e.key] == [e.key];
    }
    forall run
      ensures KeysOf(events + [e], run) == KeysOf(events, run) + if e.run == run then [e.key] else []
    {
    }
    assert forall run :: run != e.run ==> KeysOf(events, run) + [] == KeysOf(events, run);
  }

  /** Where all keys can be stored, the delivered maximum is the stored one. */
  lemma SummaryLeads(b: Batch, keys: seq<Key>)
    requires Summarizes(b, keys) && forall k :: k in keys ==> Storable(k)
    ensures Leads(Some(b.maximum), keys)
  {
    hide Storable, Canonical, KeyOrder, Cmp, ReadOrder;
    var m :| m in keys && b.maximum == Canonical(m) && b.order == KeyOrder(m);
    StorableReads(m);
    forall k | k in keys
      ensures AtMost(Stored(k), Some(b.maximum))
    {
      StorableReads(k);
    }
  }

  // ---------------------------------------------------------------------------
  // The durable rows
  // ---------------------------------------------------------------------------

  datatype Row = Row(last: Cursor, maximum: Cursor, rows: nat, chunks: nat, complete: bool)

  predicate AllStorable(keys: seq<Key>) {
    forall k :: k in keys ==> Storable(k)
  }

  /** The row counts these keys, and leads them if all of them can be stored. */
  ghost predicate Tracks(row: Row, keys: seq<Key>) {
    row.rows == |keys| && (AllStorable(keys) ==> Leads(row.last, keys) && Leads(row.maximum, keys))
  }

  /** When a row takes progress: it is not finished, or that is allowed, and every cursor reads. */
  predicate Takes(row: Row, last: Cursor, maximum: Cursor, allowTerminal: bool) {
    (!row.complete || allowTerminal) &&
    Readable(row.last) && Readable(row.maximum) && Readable(last) && Readable(maximum)
  }

  ghost predicate TracksAll(table: map<string, Row>, presented: map<string, seq<Key>>) {
    table.Keys == presented.Keys && forall run :: run in table ==> Tracks(table[run], presented[run])
  }

  class Repository {
    var table: map<string, Row>
    ghost var presented: map<string, seq<Key>>

    constructor ()
      ensures Valid() && table == map[]
    {
      table, presented := map[], map[];
    }

    ghost predicate Valid()
      reads this
    {
      TracksAll(table, presented)
    }

    method Admit(run: string)
      requires Valid() && run !in table
      modifies this
      ensures Valid() && presented == old(presented)[run := []]
    {
      table, presented := table[run := Row(None, None, 0, 0, false)], presented[run := []];
    }

    /** `update_progress`, on any row, also one an older build left with `last` above
        `maximum`: neither field moves back and `last` never ends above `maximum`. A finished
        run takes progress only where that is allowed, and an unreadable cursor refuses. */
    method UpdateProgress(run: string, last: Cursor, maximum: Cursor, chunks: nat, rows: nat, allowTerminal: bool) returns (ok: bool)
      requires run in table
      modifies this`table
      ensures ok <==> Takes(old(table)[run], last, maximum, allowTerminal)
      ensures run in table && (!ok ==> table == old(table))
      ensures ok ==> table == old(table)[run := table[run]] && table[run].complete == old(table)[run].complete
      ensures ok ==> table[run].rows == old(table)[run].rows + rows && table[run].chunks == old(table)[run].chunks + chunks
      ensures ok ==> Greatest(table[run].last, [old(table)[run].last, old(table)[run].maximum, last])
      ensures ok ==>
        Greatest(table[run].maximum, [old(table)[run].maximum, old(table)[run].last, maximum, table[run].last])
    {
      hide ReadOrder, Cmp;
      var row := table[run];
      if row.complete && !allowTerminal { return false; }
      var candidates := [row.last, row.maximum, last];
      assert row.last == candidates[0] && row.maximum == candidates[1] && last == candidates[2];
      var newLast := MaxCursor(candidates);
      if newLast.Unreadable? { return false; }
      var wider := [row.maximum, row.last, maximum, newLast.winner];
      assert maximum == wider[2];
      var newMax := MaxCursor(wider);
      if newMax.Unreadable? { return false; }
      table := table[run := Row(newLast.winner, newMax.winner, row.rows + rows, row.chunks + chunks, row.complete)];
      return true;
    }

    /** `commit_progress`: gather the delivered keys of every run, then move each run's
        cursor, in one transaction that fails exactly when some cursor cannot be read. No
        cursor moves back, the row count is the number of keys presented, the chunk count
        grew by the units the run had rows in, and a cursor is the greatest key ever
        presented to its run if all of them can be stored. */
    method CommitProgress(units: seq<seq<Delivery>>) returns (ok: bool, byRun: map<string, Batch>)
      requires Valid() && forall e :: e in Join(units) ==> e.run in table
      modifies this
      ensures Valid() && presented.Keys == old(presented).Keys == table.Keys == old(table).Keys
      ensures Gathers(byRun, Join(units)) && byRun.Keys <= old(table).Keys
      ensures ok <==> forall run :: run in byRun ==> TakesBatch(old(table)[run], byRun[run])
      ensures !ok ==> table == old(table) && presented == old(presented)
      ensures ok ==> forall run :: run in table ==> presented[run] == old(presented)[run] + KeysOf(Join(units), run)
      ensures ok ==> forall run :: run in table ==> table[run].chunks == old(table)[run].chunks + UnitsWith(units, run)
      ensures forall run :: run in table ==>
        AtMost(old(table)[run].last, table[run].last) && AtMost(old(table)[run].maximum, table[run].maximum)
    {
      hide TracksAll, Leads, Gathers, Chunked, Storable, AtMost, KeysOf, UnitsWith, Onward, Join, TakesBatch;
      byRun := Gather(units);
      SameKeys();
      OnwardStart(table, presented, byRun.Keys, units);
      GatheredRuns(byRun, Join(units), table.Keys);
      var before, todo := table, byRun.Keys;
      while todo != {}
        invariant todo <= byRun.Keys <= table.Keys && table.Keys == old(table).Keys && Valid()
        invariant Onward(old(table), old(presented), table, presented, byRun.Keys - todo, units)
        invariant forall run :: run in byRun.Keys - todo ==> TakesBatch(old(table)[run], byRun[run])
      {
        var run :| run in todo;
        ghost var now, already := table, presented;
        OnwardRest(old(table), old(presented), table, presented, byRun.Keys - todo, units, run);
        var moved := Advance(run, byRun[run], byRun, units);
        if !moved {
          Unmoved(old(table));
          table, presented := before, old(presented);
          return false, byRun;
        }
        OnwardOne(old(table), old(presented), now, already, table, presented, byRun.Keys - todo, run, units);
        assert byRun.Keys - todo + {run} == byRun.Keys - (todo - {run});
        todo := todo - {run};
      }
      assert byRun.Keys - todo == byRun.Keys;
      OnwardEnd(old(table), old(presented), table, presented, byRun, units);
      return true, byRun;
    }

    lemma SameKeys()
      requires Valid()
      ensures table.Keys == presented.Keys
    {
    }

    method Advance(run: string, b: Batch, ghost byRun: map<string, Batch>, ghost units: seq<seq<Delivery>>) returns (ok: bool)
      requires Valid() && run in table && run in byRun && b == byRun[run]
      requires Gathers(byRun, Join(units)) && Chunked(byRun, units)
      modifies this
      ensures Valid() && (ok <==> TakesBatch(old(table)[run], b))
      ensures run in table && table == old(table)[run := table[run]]
      ensures ok ==> presented == old(presented)[run := old(presented)[run] + KeysOf(Join(units), run)]
      ensures ok ==> table[run].chunks == old(table)[run].chunks + UnitsWith(units, run)
      ensures ok ==> AtMost(old(table)[run].last, table[run].last) && AtMost(old(table)[run].maximum, table[run].maximum)
    {
      hide Leads, Storable, AllStorable, AtMost, Greatest, Readable, ReadOrder, KeysOf, Join, UnitsWith, Cmp, Canonical, KeyOrder, Takes;
      ghost var row, keys, more := table[run], presented[run], KeysOf(Join(units), run);
      assert Summarizes(b, more);
      var c := Some(b.maximum);
      ok := UpdateProgress(run, c, c, b.chunks, b.rows, true);
      if ok {
        Moved(row, table[run], b, keys, more);
        presented := presented[run := keys + more];
      }
    }
  }

  predicate TakesBatch(row: Row, b: Batch) {
    Takes(row, Some(b.maximum), Some(b.maximum), true)
  }

  /** Between the tables `t` and `u`, the cursors of the runs in `done` took the gathered
      keys and none moved back. */
  ghost predicate Onward(t: map<string, Row>, p: map<string, seq<Key>>, u: map<string, Row>, q: map<string, seq<Key>>,
                         done: set<string>, units: seq<seq<Delivery>>)
  {
    t.Keys == p.Keys == u.Keys == q.Keys &&
    forall run :: run in u ==>
      AtMost(t[run].last, u[run].last) && AtMost(t[run].maximum, u[run].maximum) &&
      if run in done
      then q[run] == p[run] + KeysOf(Join(units), run) && u[run].chunks == t[run].chunks + UnitsWith(units, run)
      else u[run] == t[run] && q[run] == p[run]
  }

  lemma OnwardStart(t: map<string, Row>, p: map<string, seq<Key>>, runs: set<string>, units: seq<seq<Delivery>>)
    requires t.Keys == p.Keys
    ensures Onward(t, p, t, p, runs - runs, units)
  {
    Unmoved(t);
  }

  lemma OnwardRest(t: map<string, Row>, p: map<string, seq<Key>>, u: map<string, Row>, q: map<string, seq<Key>>,
                   done: set<string>, units: seq<seq<Delivery>>, run: string)
    requires Onward(t, p, u, q, done, units) && run in u && run !in done
    ensures run in t && u[run] == t[run]
  {
  }

  lemma OnwardOne(t: map<string, Row>, p: map<string, seq<Key>>, u: map<string, Row>, q: map<string, seq<Key>>,
                  v: map<string, Row>, r: map<string, seq<Key>>, done: set<string>, run: string, units: seq<seq<Delivery>>)
    requires Onward(t, p, u, q, done, units) && run in u && run !in done && run in v
    requires v == u[run := v[run]] && r == q[run := q[run] + KeysOf(Join(units), run)]
    requires v[run].chunks == u[run].chunks + UnitsWith(units, run)
    requires AtMost(u[run].last, v[run].last) && AtMost(u[run].maximum, v[run].maximum)
    ensures Onward(t, p, v, r, done + {run}, units)
  {
    hide AtMost, KeysOf, UnitsWith, Join;
    assert v.Keys == u.Keys && r.Keys == q.Keys;
    forall o | o in v
      ensures AtMost(t[o].last, v[o].last) && AtMost(t[o].maximum, v[o].maximum)
      ensures if o in done + {run}
        then r[o] == p[o] + KeysOf(Join(units), o) && v[o].chunks == t[o].chunks + UnitsWith(units, o)
        else v[o] == t[o] && r[o] == p[o]
    {
      if o == run {
        assert u[run] == t[run] && q[run] == p[run];
      } else {
        assert v[o] == u[o] && r[o] == q[o];
      }
    }
  }

  lemma OnwardEnd(t: map<string, Row>, p: map<string, seq<Key>>, u: map<string, Row>, q: map<string, seq<Key>>,
                  byRun: map<string, Batch>, units: seq<seq<Delivery>>)
    requires Onward(t, p, u, q, byRun.Keys, units) && Gathers(byRun, Join(units))
    ensures t.Keys == p.Keys == u.Keys == q.Keys
    ensures forall run :: run in u ==> q[run] == p[run] + KeysOf(Join(units), run)
    ensures forall run :: run in u ==> u[run].chunks == t[run].chunks + UnitsWith(units, run)
    ensures forall run :: run in u ==> AtMost(t[run].last, u[run].last) && AtMost(t[run].maximum, u[run].maximum)
  {
    hide AtMost, Gathers, Join, UnitsWith;
    NothingGathered(byRun, Join(units));
    forall run | run in u
      ensures q[run] == p[run] + KeysOf(Join(units), run)
      ensures u[run].chunks == t[run].chunks + UnitsWith(units, run)
    {
      assert p[run] + [] == p[run];
      if run !in byRun { NoKeysNoUnits(units, run); }
    }
  }

  lemma LeaderReads(c: Cursor, keys: seq<Key>)
    requires Leads(c, keys)
    ensures Readable(c)
  {
  }

  lemma Unmoved(table: map<string, Row>)
    ensures forall run :: run in table ==>
      AtMost(table[run].last, table[run].last) && AtMost(table[run].maximum, table[run].maximum)
  {
    forall run | run in table
      ensures AtMost(table[run].last, table[run].last) && AtMost(table[run].maximum, table[run].maximum)
    {
      AtMostItself(table[run].last);
      AtMostItself(table[run].maximum);
    }
  }

  lemma {:induction false} OwnedKeys(events: seq<Delivery>, run: string)
    requires KeysOf(events, run) != []
    ensures exists e :: e in events && e.run == run
  {
    var last := events[|events| - 1];
    if last.run == run {
      assert last in events;
    } else {
      OwnedKeys(events[..|events| - 1], run);
    }
  }

  lemma GatheredRuns(byRun: map<string, Batch>, events: seq<Delivery>, runs: set<string>)
    requires Gathers(byRun, events) && forall e :: e in events ==> e.run in runs
    ensures byRun.Keys <= runs
  {
    forall run | run in byRun
      ensures run in runs
    {
      OwnedKeys(events, run);
    }
  }

  lemma NothingGathered(byRun: map<string, Batch>, events: seq<Delivery>)
    requires Gathers(byRun, events)
    ensures forall run :: run !in byRun ==> KeysOf(events, run) == []
  {
  }

  /** Over keys that can be stored a commit never fails. */
  lemma StorableTakes(row: Row, keys: seq<Key>, b: Batch, more: seq<Key>)
    requires Tracks(row, keys) && Summarizes(b, more) && AllStorable(keys) && AllStorable(more)
    ensures TakesBatch(row, b)
  {
    hide Storable, Leads, Readable;
    SummaryLeads(b, more);
    LeaderReads(row.last, keys);
    LeaderReads(row.maximum, keys);
    LeaderReads(Some(b.maximum), more);
  }

  /** One update of a tracked row: it tracks the new keys too, and did not move back. */
  lemma Moved(was: Row, now: Row, b: Batch, keys: seq<Key>, more: seq<Key>)
    requires Tracks(was, keys) && Summarizes(b, more)
    requires Greatest(now.last, [was.last, was.maximum, Some(b.maximum)])
    requires Greatest(now.maximum, [was.maximum, was.last, Some(b.maximum), now.last])
    requires now.rows == was.rows + b.rows
    ensures Tracks(now, keys + more)
    ensures AtMost(was.last, now.last) && AtMost(was.maximum, now.maximum)
  {
    hide Storable, Leads, AtMost;
    var c := Some(b.maximum);
    if AllStorable(keys + more) {
      assert forall k :: k in keys ==> k in keys + more;
      assert forall k :: k in more ==> k in keys + more;
      SummaryLeads(b, more);
      LeadsTogether(now.last, was.last, was.maximum, c, keys, more);
      WiderLeads(was, now, c, keys, more);
    }
    assert was.last == [was.last, was.maximum, c][0];
    assert was.maximum == [was.maximum, was.last, c, now.last][0];
  }

  lemma WiderLeads(was: Row, now: Row, c: Cursor, keys: seq<Key>, more: seq<Key>)
    requires Leads(was.last, keys) && Leads(was.maximum, keys) && Leads(c, more) && Leads(now.last, keys + more)
    requires Greatest(now.maximum, [was.maximum, was.last, c, now.last])
    ensures Leads(now.maximum, keys + more)
  {
    hide Canonical, ReadOrder;
    var wide := [was.maximum, was.last, c, now.last];
    assert now.last == wide[3];
    if keys + more != [] {
      forall k | k in keys + more
        ensures AtMost(Stored(k), now.maximum)
      {
        AtMostTransitive(Stored(k), now.last, now.maximum);
      }
    }
  }

  /** Whatever row it starts from, `last` ends at most `maximum`. */
  lemma LastAtMostMaximum(row: Row, after: Row, maximum: Cursor)
    requires Greatest(after.maximum, [row.maximum, row.last, maximum, after.last])
    ensures AtMost(after.last, after.maximum)
  {
    assert after.last == [row.maximum, row.last, maximum, after.last][3];
  }

  /** Two cursors that lead the same keys order alike, so the leader does not depend on
      the order, the batching or the repetition of the keys. */
  lemma LeaderUnique(c: Cursor, d: Cursor, keys: seq<Key>, again: seq<Key>)
    requires keys != []
    ensures Leads(c, keys) && Leads(d, again) && (forall k :: k in keys <==> k in again) && (forall k :: k in keys ==> Storable(k))
      ==> c.Some? && d.Some? && ReadOrder(c.value) == ReadOrder(d.value)
  {
    if !(Leads(c, keys) && Leads(d, again) && (forall k :: k in keys <==> k in again) && forall k :: k in keys ==> Storable(k)) {
      return;
    }
    assert keys[0] in again;
    var k :| k in keys && c == Stored(k);
    var l :| l in again && d == Stored(l);
    StorableReads(k);
    StorableReads(l);
    assert AtMost(c, d) && AtMost(d, c);
    CmpTotal(ReadOrder(c.value).value, ReadOrder(d.value).value);
  }

  // ---------------------------------------------------------------------------
  // What the cursor is, by the values of the keys
  // ---------------------------------------------------------------------------

  /** No key presented is above the stored one, column by column. */
  lemma LeaderIsGreatest(c: Cursor, keys: seq<Key>, byName: bool)
    requires keys != [] && Leads(c, keys) && AllStorable(keys) && forall k :: k in keys ==> k.ByName? == byName
    ensures exists k :: k in keys && c == Stored(k) && forall l :: l in keys ==> !KeyBelow(k, l)
  {
    hide Storable, Canonical, KeyOrder, Cmp, ReadOrder, KeyBelow;
    var k :| k in keys && c == Stored(k);
    StorableReads(k);
    forall l | l in keys
      ensures !KeyBelow(k, l)
    {
      StorableReads(l);
      assert AtMost(Stored(l), c);
      CmpTotal(KeyOrder(l), KeyOrder(k));
      KeyMeans(k, l);
    }
  }

  function IntegerKeys(column: string, ns: seq<int>): (keys: seq<Key>)
    ensures |keys| == |ns| && forall i :: 0 <= i < |ns| ==> keys[i] == IntegerKey(column, ns[i])
  {
    seq(|ns|, i requires 0 <= i < |ns| => IntegerKey(column, ns[i]))
  }

  /** The stored key of the greatest of these numbers. */
  ghost predicate HoldsMaximum(c: Cursor, column: string, ns: seq<int>) {
    exists m :: m in ns && c == Stored(IntegerKey(column, m)) && forall n :: n in ns ==> n <= m
  }

  lemma IntegersStorable(column: string, ns: seq<int>)
    ensures AllStorable(IntegerKeys(column, ns))
  {
  }

  lemma LeadsIntegers(c: Cursor, column: string, ns: seq<int>)
    requires ns != [] && Leads(c, IntegerKeys(column, ns))
    ensures HoldsMaximum(c, column, ns)
  {
    hide Canonical, KeyOrder, Cmp, ReadOrder;
    var keys := IntegerKeys(column, ns);
    IntegersStorable(column, ns);
    var k :| k in keys && c == Stored(k);
    var i :| 0 <= i < |keys| && keys[i] == k;
    StorableReads(k);
    forall n | n in ns
      ensures n <= ns[i]
    {
      var j :| 0 <= j < |ns| && ns[j] == n;
      assert keys[j] in keys;
      StorableReads(keys[j]);
      assert AtMost(Stored(keys[j]), c);
      IntegersCompare(column, ns[i], n);
      CmpTotal(KeyOrder(keys[j]), KeyOrder(k));
    }
  }

  /** Over integer keys `_max_cursor_json` picks the numerically greatest one. */
  lemma GreatestInteger(w: Cursor, candidates: seq<Cursor>, column: string, ns: seq<int>)
    requires ns != [] && |candidates| == |ns| && Greatest(w, candidates)
    requires forall i :: 0 <= i < |ns| ==> candidates[i] == Stored(IntegerKey(column, ns[i]))
    ensures HoldsMaximum(w, column, ns)
  {
    hide Canonical, ReadOrder, Cmp;
    var keys := IntegerKeys(column, ns);
    assert candidates[0] in candidates;
    var i :| 0 <= i < |candidates| && candidates[i] == w;
    assert keys[i] in keys;
    forall k | k in keys
      ensures AtMost(Stored(k), w)
    {
      var j :| 0 <= j < |keys| && keys[j] == k;
      assert candidates[j] in candidates;
    }
    LeadsIntegers(w, column, ns);
  }

  /** Over integer keys, both fields of a row hold the numerically greatest key presented. */
  lemma IntegerCursor(row: Row, column: string, ns: seq<int>)
    requires ns != [] && Tracks(row, IntegerKeys(column, ns))
    ensures HoldsMaximum(row.last, column, ns) && HoldsMaximum(row.maximum, column, ns)
  {
    hide Leads, Storable, HoldsMaximum;
    IntegersStorable(column, ns);
    LeadsIntegers(row.last, column, ns);
    LeadsIntegers(row.maximum, column, ns);
  }

  /** What one commit gathers for a run over integer keys. */
  lemma GatheredInteger(b: Batch, column: string, ns: seq<int>)
    requires ns != [] && Summarizes(b, IntegerKeys(column, ns))
    ensures HoldsMaximum(Some(b.maximum), column, ns)
  {
    hide Leads, Storable, HoldsMaximum;
    IntegersStorable(column, ns);
    SummaryLeads(b, IntegerKeys(column, ns));
    LeadsIntegers(Some(b.maximum), column, ns);
  }
}
