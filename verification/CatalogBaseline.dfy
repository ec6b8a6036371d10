/** The catalog baseline of src/cdc_flight/catalog_baseline.py: a claim, across runs, that
    what the destination holds can be related to what the source shows.  Every run first
    writes that it has not confirmed the claim, and only durable evidence restores it. */
module CatalogBaseline {
  import opened Options
  import opened Sequences

  type Name = string

  datatype State = Absent | Stale | Invalidated | Valid

  datatype Lifecycle = Untouched | Awaiting | InProgress | Complete | Gone

  /** The durable facts: the claim, each table's lifecycle, the relations with a recorded
      identity, and the tables that hold rows. */
  datatype Disk = Disk(baseline: State, lifecycle: map<Name, Lifecycle>, registry: set<Name>, holding: set<Name>)

  /** Only a valid baseline lets an observed identity be adopted as history. */
  predicate Trusted(s: State) {
    s.Valid?
  }

  predicate Edge(a: State, b: State) {
    match b
    case Stale => true
    case Invalidated => !a.Valid?
    case Valid => a.Stale? || a.Invalidated?
    case Absent => !a.Absent?
  }

  predicate Owes(l: Lifecycle) {
    l.Awaiting? || l.InProgress?
  }

  function Owing(d: Disk): set<Name> {
    set n | n in d.lifecycle && Owes(d.lifecycle[n])
  }

  /** Tables with rows and no recorded identity; `owedToo` counts those already queued for
      a rebuild. */
  function Unrelatable(d: Disk, owedToo: bool): set<Name> {
    set n | n in d.lifecycle && (owedToo || !Owes(d.lifecycle[n])) && n !in d.registry && n in d.holding
  }

  /** Unrelatable, and nothing has rebuilt it yet. */
  function Unrebuilt(d: Disk): set<Name> {
    Unrelatable(d, true) * Owing(d)
  }

  /** The tables that need marking and those nothing has rebuilt are together the tables
      that block a confirmation, and no table is both. */
  lemma UnrelatableSplits(d: Disk)
    ensures Unrelatable(d, true) == Unrelatable(d, false) + Unrebuilt(d)
    ensures Unrelatable(d, false) !! Unrebuilt(d)
  {
    assert forall n :: n in Unrelatable(d, true) ==> n in Unrelatable(d, false) || n in Unrebuilt(d);
  }

  // ---------------------------------------------------------------------------
  // One run
  // ---------------------------------------------------------------------------

  /** What a run carries from its start to its end. */
  datatype Check = Check(was: State, state: State, detected: set<Name>, unmarked: set<Name>, unreconciled: set<Name>)

  predicate Reconciling(c: Check) {
    !Trusted(c.was)
  }

  /** One durable step of the engine: anything but the claim may change. */
  datatype Work = Work(lifecycle: map<Name, Lifecycle>, registry: set<Name>, holding: set<Name>)

  /** A run: whether it has a catalog watcher, what its engine commits, how many polls
      succeeded, which tables refuse the mark, and how many durable steps it lives. */
  datatype Script = Script(watching: bool, work: seq<Work>, polls: nat, refusing: set<Name>, crash: Crash)

  // ---------------------------------------------------------------------------
  // What a run writes
  // ---------------------------------------------------------------------------

  function Last(d: Disk, steps: seq<Disk>): Disk {
    if steps == [] then d else steps[|steps| - 1]
  }

  /** The tables a run must queue for a rebuild before it starts. */
  function Owed(d: Disk, s: Script): set<Name> {
    if s.watching && !Trusted(d.baseline) then Unrelatable(d, false) else {}
  }

  function Marked(lifecycle: map<Name, Lifecycle>, names: set<Name>): map<Name, Lifecycle> {
    map n | n in lifecycle :: if n in names then Awaiting else lifecycle[n]
  }

  /** The mark first, then the queue. */
  function MarkSteps(d: Disk, s: Script): seq<Disk> {
    var owed := Owed(d, s);
    if owed == {} then [d.(baseline := Stale)]
    else [d.(baseline := Invalidated),
          d.(baseline := Invalidated, lifecycle := Marked(d.lifecycle, owed - s.refusing))]
  }

  function WorkSteps(d: Disk, work: seq<Work>): (steps: seq<Disk>)
    ensures |steps| == |work|
    ensures forall i :: 0 <= i < |work| ==> steps[i] == Disk(d.baseline, work[i].lifecycle, work[i].registry, work[i].holding)
  {
    seq(|work|, i requires 0 <= i < |work| => Disk(d.baseline, work[i].lifecycle, work[i].registry, work[i].holding))
  }

  /** What still blocks a promotion, for a run that started from the claim `was`. */
  function Blocking(was: State, d: Disk): set<Name> {
    (if Trusted(was) then {} else Unrelatable(d, true)) + Owing(d)
  }

  function ConfirmSteps(was: State, d: Disk, polls: nat): seq<Disk> {
    if polls == 0 then []
    else if Blocking(was, d) == {} then [d.(baseline := Valid)]
    else if d.baseline.Invalidated? then []
    else [d.(baseline := Invalidated)]
  }

  /** Everything a run writes if it lives. */
  function Written(d: Disk, s: Script): seq<Disk> {
    var marked := MarkSteps(d, s);
    var worked := WorkSteps(Last(d, marked), s.work);
    marked + worked + ConfirmSteps(d.baseline, Last(Last(d, marked), worked), s.polls)
  }

  /** What it writes before it dies. */
  function Taken(steps: seq<Disk>, crash: Crash): seq<Disk> {
    if crash.Some? && crash.value < |steps| then steps[..crash.value] else steps
  }

  datatype Act = Runs(script: Script) | Forgets

  function ActSteps(d: Disk, a: Act): seq<Disk> {
    match a
    case Runs(s) => Taken(Written(d, s), s.crash)
    case Forgets => if d.baseline.Absent? then [] else [d.(baseline := Absent, registry := {})]
  }

  /** Every durable state of a history, in order. */
  function Trace(start: Disk, acts: seq<Act>): (trace: seq<Disk>)
    ensures trace != [] && trace[0] == start
  {
    if acts == [] then [start] else
      var before := Trace(start, acts[..|acts| - 1]);
      before + ActSteps(before[|before| - 1], acts[|acts| - 1])
  }

  // ---------------------------------------------------------------------------
  // What that guarantees
  // ---------------------------------------------------------------------------

  /** From the first write of a run to the last but one the claim is not valid, and the last
      write makes it valid only over a disk nothing blocks. */
  lemma UnconfirmedThroughout(d: Disk, s: Script)
    ensures var w := Written(d, s);
      |w| >= 1 && (forall i :: 0 <= i < |w| - 1 ==> !Trusted(w[i].baseline)) &&
      (Trusted(w[|w| - 1].baseline) <==> s.polls > 0 && Blocking(d.baseline, w[|w| - 1]) == {})
  {
    var marked := MarkSteps(d, s);
    var worked := WorkSteps(Last(d, marked), s.work);
    var e := Last(Last(d, marked), worked);
    assert !Trusted(e.baseline);
    assert forall i :: 0 <= i < |marked + worked| ==> !Trusted((marked + worked)[i].baseline);
    var w := Written(d, s);
    if ConfirmSteps(d.baseline, e, s.polls) == [] {
      assert w == marked + worked;
    } else {
      assert w[..|w| - 1] == marked + worked;
      assert Blocking(d.baseline, w[|w| - 1]) == Blocking(d.baseline, e);
    }
  }

  /** The mark of a run, from the durable facts alone: a run that watches the catalog and found
      the claim not valid queues for a rebuild exactly the tables that hold rows, have no recorded
      identity, are not queued yet and do not refuse; the claim becomes invalidated iff there are
      such tables, refusing or not, and stale otherwise. */
  lemma MarkTells(d: Disk, s: Script)
    ensures var after := Last(d, MarkSteps(d, s));
      after.lifecycle.Keys == d.lifecycle.Keys && after.registry == d.registry && after.holding == d.holding &&
      (after.baseline == if exists n :: Orphaned(d, s, n) then Invalidated else Stale) &&
      forall n :: n in d.lifecycle ==>
        after.lifecycle[n] == if Orphaned(d, s, n) && n !in s.refusing then Awaiting else d.lifecycle[n]
  {
    assert forall n :: n in Owed(d, s) <==> Orphaned(d, s, n);
    if Owed(d, s) != {} { var n :| n in Owed(d, s); }
  }

  predicate Orphaned(d: Disk, s: Script, n: Name) {
    s.watching && !d.baseline.Valid? && n in d.holding && n !in d.registry && n in d.lifecycle &&
    (d.lifecycle[n].Untouched? || d.lifecycle[n].Complete? || d.lifecycle[n].Gone?)
  }

  /** The last write of a run leaves the claim valid exactly if the catalog was read, no table is
      still queued for or in a rebuild, and, unless the claim was valid when the run started, no
      table holds rows without a recorded identity. */
  lemma PromotionTells(d: Disk, s: Script)
    ensures var after := Last(d, Written(d, s));
      after.baseline.Valid? <==>
        s.polls > 0 && (forall n :: n in after.lifecycle ==> !after.lifecycle[n].Awaiting? && !after.lifecycle[n].InProgress?) &&
        (d.baseline.Valid? || forall n :: n in after.lifecycle && n in after.holding ==> n in after.registry)
  {
    UnconfirmedThroughout(d, s);
    var after := Last(d, Written(d, s));
    hide Written;
    assert forall n :: n in Owing(after) <==> n in after.lifecycle && (after.lifecycle[n].Awaiting? || after.lifecycle[n].InProgress?);
    assert forall n :: n in Unrelatable(after, true) <==> n in after.lifecycle && n in after.holding && n !in after.registry;
  }

  /** Forgetting the recorded catalog takes every identity and the claim with it, and nothing else. */
  lemma ForgetTells(d: Disk)
    ensures var after := Last(d, ActSteps(d, Forgets));
      after.baseline.Absent? && after.lifecycle == d.lifecycle && after.holding == d.holding &&
      after.registry == if d.baseline.Absent? then d.registry else {}
  {
  }

  /** A run that dies after its mark and before its promotion leaves the claim unconfirmed; one
      that leaves it valid earned it. */
  lemma DeathLeavesUnconfirmed(d: Disk, s: Script)
    ensures var t := Taken(Written(d, s), s.crash);
      (t != [] && |t| < |Written(d, s)| ==> !Trusted(Last(d, t).baseline)) &&
      (t != [] && Trusted(Last(d, t).baseline) ==> s.polls > 0 && Blocking(d.baseline, Last(d, t)) == {})
  {
    UnconfirmedThroughout(d, s);
  }

  ghost predicate Throughout(trace: seq<Disk>, n: Name) {
    forall i :: 0 <= i < |trace| ==> n in Unrelatable(trace[i], true)
  }

  /** A table that holds rows with no recorded identity when a run starts on an untrusted
      claim keeps the claim from ever being valid, in that run and in every later one, for as
      long as it stays so, whatever dies or is forgotten in between. */
  lemma {:induction false} BlocksForever(start: Disk, acts: seq<Act>, n: Name)
    requires !Trusted(start.baseline) && Throughout(Trace(start, acts), n)
    ensures forall d :: d in Trace(start, acts) ==> !Trusted(d.baseline)
    decreases |acts|
  {
    hide ActSteps, Unrelatable, Trusted;
    if acts != [] {
      var before := Trace(start, acts[..|acts| - 1]);
      var steps := ActSteps(before[|before| - 1], acts[|acts| - 1]);
      var all := before + steps;
      assert Throughout(before, n) by {
        assert forall i :: 0 <= i < |before| ==> all[i] == before[i];
      }
      BlocksForever(start, acts[..|acts| - 1], n);
      assert before[|before| - 1] in before;
      forall i | 0 <= i < |steps|
        ensures !Trusted(steps[i].baseline)
      {
        assert all[|before| + i] == steps[i];
        StepUntrusted(before[|before| - 1], acts[|acts| - 1], n, i);
      }
    }
  }

  lemma StepUntrusted(d: Disk, a: Act, n: Name, i: nat)
    requires !Trusted(d.baseline) && i < |ActSteps(d, a)| && n in Unrelatable(ActSteps(d, a)[i], true)
    ensures !Trusted(ActSteps(d, a)[i].baseline)
  {
    if a.Runs? {
      UnconfirmedThroughout(d, a.script);
      hide Written;
      assert n in Blocking(d.baseline, Written(d, a.script)[i]);
    }
  }

  /** The claim only ever moves along declared edges. */
  ghost predicate Chained(trace: seq<Disk>) {
    forall i, j :: 0 <= i && j == i + 1 && j < |trace| ==>
      Edge(trace[i].baseline, trace[j].baseline) || trace[i].baseline == trace[j].baseline
  }

  // ---------------------------------------------------------------------------
  // The run
  // ---------------------------------------------------------------------------

  class Destination {
    var disk: Disk
    /** Every durable state so far. */
    var trace: seq<Disk>

    constructor (disk: Disk)
      ensures this.disk == disk && trace == [disk] && Recorded()
    {
      this.disk := disk;
      trace := [disk];
    }

    ghost predicate Recorded()
      reads this
    {
      trace != [] && trace[|trace| - 1] == disk && Chained(trace)
    }

    method Step(d: Disk)
      requires Recorded() && (Edge(disk.baseline, d.baseline) || disk.baseline == d.baseline)
      modifies this
      ensures Recorded() && disk == d && trace == old(trace) + [d]
    {
      disk := d;
      trace := trace + [d];
    }

    /** Before the engine starts: write that the claim is unconfirmed, then queue what cannot
        be related. */
    method MarkUnconfirmed(s: Script) returns (check: Option<Check>, rest: Crash)
      requires Recorded()
      modifies this
      ensures Recorded() && trace == old(trace) + Taken(MarkSteps(old(disk), s), s.crash)
      ensures check.None? <==> s.crash.Some? && s.crash.value < |MarkSteps(old(disk), s)|
      ensures check.Some? ==> check.value.was == old(disk).baseline && check.value.state == disk.baseline
      ensures check.Some? ==> rest == Left(s.crash, |MarkSteps(old(disk), s)|) && disk == Last(old(disk), MarkSteps(old(disk), s))
      ensures check.Some? ==> disk.baseline.Stale? || disk.baseline.Invalidated?
      ensures check.Some? ==> forall n :: n in Owed(old(disk), s) ==> n in Owing(disk) || n in check.value.unmarked
      ensures check.Some? ==> forall n :: n in check.value.detected <==> Orphaned(old(disk), s, n)
      ensures check.Some? ==> check.value.unmarked == check.value.detected * s.refusing
      ensures disk.registry == old(disk).registry && disk.holding == old(disk).holding
    {
      var was := disk.baseline;
      var owed := Owed(disk, s);
      if s.crash == Some(0) { return None, s.crash; }
      Step(disk.(baseline := if owed != {} then Invalidated else Stale));
      if owed == {} { return Some(Check(was, disk.baseline, {}, {}, {})), Spend(s.crash); }
      if s.crash == Some(1) { return None, Some(0); }
      Step(disk.(lifecycle := Marked(disk.lifecycle, owed - s.refusing)));
      var unmarked := owed - Owing(disk);
      return Some(Check(was, disk.baseline, owed, unmarked, owed)), Spend(Spend(s.crash));
    }

    /** The engine's commits. They never touch the claim. */
    method Engine(work: seq<Work>, crash: Crash) returns (alive: bool, rest: Crash)
      requires Recorded()
      modifies this
      ensures Recorded() && trace == old(trace) + Taken(WorkSteps(old(disk), work), crash)
      ensures alive <==> !(crash.Some? && crash.value < |work|)
      ensures disk.baseline == old(disk).baseline
      ensures alive ==> rest == Left(crash, |work|) && disk == Last(old(disk), WorkSteps(old(disk), work))
    {
      rest := crash;
      ghost var steps := WorkSteps(disk, work);
      for i := 0 to |work|
        invariant Recorded() && trace == old(trace) + steps[..i] && disk == Last(old(disk), steps[..i])
        invariant rest == Left(crash, i) && !(crash.Some? && crash.value < i)
      {
        if rest == Some(0) { return false, rest; }
        assert steps[..i + 1] == steps[..i] + [steps[i]];
        Step(Disk(disk.baseline, work[i].lifecycle, work[i].registry, work[i].holding));
        rest := Spend(rest);
      }
      assert steps[..|work|] == steps;
      return true, rest;
    }

    /** Promote the claim if, and only if, this run earned it. */
    method Confirm(check: Check, polls: nat, crash: Crash) returns (after: Check, died: bool)
      requires Recorded() && check.state == disk.baseline && (disk.baseline.Stale? || disk.baseline.Invalidated?)
      modifies this
      ensures Recorded() && trace == old(trace) + Taken(ConfirmSteps(check.was, old(disk), polls), crash)
      ensures died <==> crash == Some(0) && ConfirmSteps(check.was, old(disk), polls) != []
      ensures disk.baseline.Valid? <==>
        polls > 0 && !died && Owing(disk) == {} && (Reconciling(check) ==> Unrelatable(disk, true) == {})
      ensures disk == old(disk).(baseline := disk.baseline) && after.state == disk.baseline
    {
      if polls == 0 { return check, false; }
      var remaining := (if Reconciling(check) then Unrelatable(disk, true) else {}) + Owing(disk);
      if remaining != {} {
        if check.state != Invalidated {
          if crash == Some(0) { return check, true; }
          Step(disk.(baseline := Invalidated));
        }
        return check.(state := disk.baseline, unreconciled := remaining), false;
      }
      if crash == Some(0) { return check, true; }
      Step(disk.(baseline := Valid));
      return check.(state := Valid, unreconciled := {}), false;
    }

    /** One run, dying wherever it dies: it writes the first steps of what it would write. */
    method RunOnce(s: Script) returns (died: bool)
      requires Recorded()
      modifies this
      ensures Recorded() && trace == old(trace) + Taken(Written(old(disk), s), s.crash)
      ensures died <==> s.crash.Some? && s.crash.value < |Written(old(disk), s)|
    {
      ghost var d := disk;
      ghost var marked := MarkSteps(d, s);
      ghost var worked := WorkSteps(Last(d, marked), s.work);
      WrittenTaken(d, s);
      hide Chained, MarkSteps, WorkSteps, ConfirmSteps, Taken, Written;
      var check, rest := MarkUnconfirmed(s);
      if check.None? { return true; }
      var alive, left := Engine(s.work, rest);
      Regroup(old(trace), marked, Taken(worked, rest), []);
      if !alive { return true; }
      var _, dead := Confirm(check.value, s.polls, left);
      Regroup(old(trace), marked, worked, Taken(ConfirmSteps(d.baseline, Last(Last(d, marked), worked), s.polls), left));
      return dead;
    }

    /** The recorded source catalog is forgotten, and the claim about it with it. */
    method Forget()
      requires Recorded()
      modifies this
      ensures Recorded() && trace == old(trace) + ActSteps(old(disk), Forgets)
    {
      if disk.baseline.Absent? { return; }
      Step(disk.(baseline := Absent, registry := {}));
    }
  }

  /** What is left of a life after `n` steps. */
  function Left(crash: Crash, n: nat): Crash {
    if crash.Some? then Some(if crash.value >= n then crash.value - n else 0) else None
  }

  lemma Regroup(a: seq<Disk>, b: seq<Disk>, c: seq<Disk>, d: seq<Disk>)
    ensures a + b + c + d == a + (b + c + d) && b + c + [] == b + c && a + b + c + [] == a + b + c
  {
  }

  /** The three stretches of a run, by where it dies. */
  lemma WrittenTaken(d: Disk, s: Script)
    ensures var marked := MarkSteps(d, s);
      var worked := WorkSteps(Last(d, marked), s.work);
      var confirmed := ConfirmSteps(d.baseline, Last(Last(d, marked), worked), s.polls);
      var rest := Left(s.crash, |marked|);
      var left := Left(rest, |worked|);
      var taken, dies := Taken(Written(d, s), s.crash), s.crash.Some? && s.crash.value < |Written(d, s)|;
      var early, late := s.crash.Some? && s.crash.value < |marked|, rest.Some? && rest.value < |worked|;
      |worked| == |s.work| &&
      (early ==> dies && taken == Taken(marked, s.crash)) &&
      (!early ==> Taken(marked, s.crash) == marked) &&
      (!early && late ==> dies && taken == marked + Taken(worked, rest)) &&
      (!early && !late ==> Taken(worked, rest) == worked && taken == marked + worked + Taken(confirmed, left)) &&
      (!early && !late ==> (dies <==> left == Some(0) && confirmed != []))
  {
    var marked := MarkSteps(d, s);
    var worked := WorkSteps(Last(d, marked), s.work);
    var confirmed := ConfirmSteps(d.baseline, Last(Last(d, marked), worked), s.polls);
    assert |confirmed| <= 1;
    hide MarkSteps, WorkSteps, ConfirmSteps;
    TakenTwice(marked, worked, s.crash);
    TakenTwice(marked + worked, confirmed, s.crash);
    TakenAll(marked, s.crash);
    TakenAll(worked, Left(s.crash, |marked|));
  }

  lemma TakenAll(a: seq<Disk>, crash: Crash)
    ensures !(crash.Some? && crash.value < |a|) ==> Taken(a, crash) == a
  {
  }

  lemma TakenTwice(a: seq<Disk>, b: seq<Disk>, crash: Crash)
    ensures Taken(a + b, crash) ==
      if crash.Some? && crash.value < |a| then Taken(a, crash) else a + Taken(b, Left(crash, |a|))
  {
    if crash.Some? && crash.value < |a + b| {
      if crash.value < |a| {
        assert (a + b)[..crash.value] == a[..crash.value];
      } else {
        assert (a + b)[..crash.value] == a + b[..crash.value - |a|];
      }
    }
  }

  /** Any sequence of runs and resets, dying wherever they die, writes exactly `Trace`, along
      declared edges only; and a table unrelatable throughout blocks the claim throughout. */
  method Persist(start: Disk, acts: seq<Act>, n: Name) returns (trace: seq<Disk>)
    ensures trace == Trace(start, acts) && Chained(trace)
    ensures !Trusted(start.baseline) && Throughout(trace, n) ==> forall d :: d in trace ==> !Trusted(d.baseline)
  {
    var d := new Destination(start);
    hide Chained, Written, Taken;
    for i := 0 to |acts|
      invariant fresh(d) && d.Recorded() && d.trace == Trace(start, acts[..i])
    {
      assert acts[..i + 1][..i] == acts[..i];
      match acts[i] {
        case Runs(script) => var _ := d.RunOnce(script);
        case Forgets => d.Forget();
      }
    }
    assert acts[..|acts|] == acts;
    trace := d.trace;
    if !Trusted(start.baseline) && Throughout(trace, n) { BlocksForever(start, acts, n); }
  }

  /** A run that started on a valid claim does not ask: it promotes over a table that gained
      rows without an identity meanwhile. */
  method PromotesUnasked() returns (end: Disk)
    ensures end.baseline.Valid? && "a.t" in Unrelatable(end, true)
  {
    var start := Disk(Valid, map["a.t" := Complete], {}, {});
    var work := Work(map["a.t" := Complete], {}, {"a.t"});
    var s := Script(true, [work], 1, {}, None);
    var trace := Persist(start, [Runs(s)], "a.t");
    end := trace[|trace| - 1];
    OneAct(start, Runs(s));
    var marked := start.(baseline := Stale);
    assert MarkSteps(start, s) == [marked];
    assert WorkSteps(marked, [work]) == [marked.(holding := {"a.t"})];
    assert Owing(marked.(holding := {"a.t"})) == {};
    assert ConfirmSteps(Valid, marked.(holding := {"a.t"}), 1) == [start.(holding := {"a.t"})];
  }

  lemma OneAct(start: Disk, a: Act)
    ensures Trace(start, [a]) == [start] + ActSteps(start, a)
  {
    assert [a][..0] == [];
    assert Trace(start, []) == [start];
  }
}
