/** Turning due catalog changes into one destination plan: the WAL fence of
    src/cdc_flight/catalog_lifecycle.py, and the filtering and circuit breaker of
    src/cdc_flight/catalog_apply.py.  A change is named by its position in the queue. */
module CatalogPlan {

  type Name = string

  datatype Kind = Dropped | Recreated | Schema | Partition | New | Unpublished | Republished

  datatype Stage = Observed | Unconfirmed | Pending | Marked | Due | Deferred | Refused | Applied | Superseded

  datatype Change = Change(kind: Kind, name: Name, lsn: int, stage: Stage)

  predicate Live(s: Stage) {
    s.Pending? || s.Marked? || s.Due? || s.Deferred? || s.Refused?
  }

  predicate Fenced(k: Kind) {
    k.Dropped? || k.Recreated? || k.Schema? || k.Partition?
  }

  /** The declared edges among the stages a plan moves between. */
  predicate Edge(a: Stage, b: Stage) {
    a == b || (Live(a) && (b.Deferred? || b.Refused? || b.Superseded?)) || (Live(a) && !a.Due? && b.Due?)
  }

  datatype Lifecycle = Gone | Complete | Owing | Other

  /** What the destination says about tables when the plan is made. */
  datatype World = World(
    lifecycle: Name -> Lifecycle,
    refusing: set<Name>,
    imageCurrent: nat -> bool)

  datatype Mode = Replicate | Log | Ignore

  datatype Config = Config(mode: Mode, limit: int, allowMass: bool)

  datatype Plan = Plan(actions: seq<nat>, refused: seq<nat>, events: seq<nat>)

  // ---------------------------------------------------------------------------
  // What becomes of one change
  // ---------------------------------------------------------------------------

  datatype Fate =
    | Idle
    | Waits
    | Event
    | AlreadyGone
    | AlreadyRebuilt
    | TableRefusing
    | ImageOwed
    | Eligible

  /** `expired` are the changes whose grace ran out; none when grace is off. */
  predicate Opens(c: Change, i: nat, durable: int, expired: set<nat>) {
    !Fenced(c.kind) || c.lsn <= durable || i in expired
  }

  function FateOf(c: Change, i: nat, durable: int, expired: set<nat>, w: World): Fate {
    if !Live(c.stage) then Idle
    else if !Opens(c, i, durable, expired) then Waits
    else Judge(c, i, w)
  }

  /** Once its fence is open: keep partition events apart, drop what the destination has
      settled, and hold back what it cannot take now. */
  function Judge(c: Change, i: nat, w: World): Fate {
    if c.kind.Partition? then Event
    else if c.kind.Dropped? && w.lifecycle(c.name).Gone? then AlreadyGone
    else if c.kind.Recreated? && w.lifecycle(c.name).Complete? && w.imageCurrent(i) then AlreadyRebuilt
    else if c.name in w.refusing && !(c.kind.Recreated? && w.lifecycle(c.name).Gone?) then TableRefusing
    else if c.kind.Dropped? && w.lifecycle(c.name).Owing? then ImageOwed
    else Eligible
  }

  ghost function FateAt(q: seq<Change>, i: nat, durable: int, expired: set<nat>, w: World): Fate {
    if i < |q| then FateOf(q[i], i, durable, expired, w) else Idle
  }

  function StageOf(fate: Fate, was: Stage): Stage {
    match fate
    case Idle => was
    case Waits | TableRefusing | ImageOwed => Deferred
    case AlreadyGone | AlreadyRebuilt => Superseded
    case Event | Eligible => Due
  }

  /** The elements of `s` below `n`, in order. */
  function Positions(n: nat, s: set<nat>): (r: seq<nat>)
    ensures forall i :: i in r <==> i in s && i < n
    ensures Rising(r)
  {
    if n == 0 then [] else
      var front := Positions(n - 1, s);
      assert forall a :: 0 <= a < |front| ==> front[a] in front;
      if n - 1 in s then front + [n - 1] else front
  }

  predicate Rising(r: seq<nat>) {
    forall a, b :: 0 <= a < b < |r| ==> r[a] < r[b]
  }

  /** A drop that would destroy its destination table. */
  predicate Destroys(c: Change, cfg: Config) {
    c.kind.Dropped? && cfg.mode.Replicate?
  }

  ghost predicate Accounted(q: seq<Change>, q': seq<Change>, plan: Plan, durable: int, expired: set<nat>, w: World, i: nat)
    requires |q| == |q'| && i < |q|
  {
    var fate := FateOf(q[i], i, durable, expired, w);
    q'[i].(stage := q[i].stage) == q[i] && Edge(q[i].stage, q'[i].stage) &&
    (i in plan.events <==> fate.Event?) &&
    (fate.Eligible? <==> i in plan.actions || i in plan.refused) && !(i in plan.actions && i in plan.refused) &&
    q'[i].stage == (if i in plan.refused then Refused else StageOf(fate, q[i].stage))
  }

  ghost predicate Plans(q: seq<Change>, q': seq<Change>, plan: Plan, durable: int, expired: set<nat>, w: World, cfg: Config) {
    |q'| == |q| &&
    (forall i :: 0 <= i < |q| ==> Accounted(q, q', plan, durable, expired, w, i)) &&
    (forall i :: i in plan.actions || i in plan.refused || i in plan.events ==> i < |q|) &&
    Rising(plan.actions) && Rising(plan.refused) && Rising(plan.events) &&
    Broken(q, plan, durable, expired, w, cfg)
  }

  /** The breaker: all eligible destruction, or none of it. */
  ghost predicate Broken(q: seq<Change>, plan: Plan, durable: int, expired: set<nat>, w: World, cfg: Config) {
    var drops := Destruction(q, durable, expired, w, cfg);
    if !cfg.allowMass && cfg.limit >= 0 && |drops| > cfg.limit then plan.refused == drops else plan.refused == []
  }

  ghost function Destruction(q: seq<Change>, durable: int, expired: set<nat>, w: World, cfg: Config): seq<nat> {
    Positions(|q|, set i: nat | i < |q| && FateOf(q[i], i, durable, expired, w).Eligible? && Destroys(q[i], cfg))
  }

  // ---------------------------------------------------------------------------
  // What a plan guarantees
  // ---------------------------------------------------------------------------

  /** Everything a plan does with one change, from the change and the destination alone.  It is
      live until it is applied or superseded; drops, recreates, schema changes and partition
      events wait for the durable position; a partition event is only reported; a drop of a
      gone table and a recreate whose image is current are settled; and a table that refuses
      its schema, unless it was gone and came back, or a drop of a table that owes its image,
      holds the change back. */
  lemma PlanTells(q: seq<Change>, q': seq<Change>, plan: Plan, durable: int, expired: set<nat>, w: World, cfg: Config, i: nat)
    requires Plans(q, q', plan, durable, expired, w, cfg) && i < |q|
    ensures var c, life := q[i], w.lifecycle(q[i].name);
      var live := c.stage.Pending? || c.stage.Marked? || c.stage.Due? || c.stage.Deferred? || c.stage.Refused?;
      var open := c.kind.New? || c.kind.Unpublished? || c.kind.Republished? || c.lsn <= durable || i in expired;
      var settled := (c.kind.Dropped? && life.Gone?) || (c.kind.Recreated? && life.Complete? && w.imageCurrent(i));
      var held := (c.name in w.refusing && !(c.kind.Recreated? && life.Gone?)) || (c.kind.Dropped? && life.Owing?);
      var taken := live && open && !c.kind.Partition? && !settled && !held;
      (i in plan.events <==> live && open && c.kind.Partition?) &&
      (i in plan.actions || i in plan.refused <==> taken) && !(i in plan.actions && i in plan.refused) &&
      q'[i] == c.(stage := if !live then c.stage
                           else if !open then Deferred
                           else if c.kind.Partition? then Due
                           else if settled then Superseded
                           else if held then Deferred
                           else if i in plan.refused then Refused
                           else Due)
  {
    assert Accounted(q, q', plan, durable, expired, w, i);
  }

  /** The breaker: where more tables would be destroyed than the limit allows, all of that is
      refused and nothing else; otherwise nothing is. */
  lemma BreakerTells(q: seq<Change>, q': seq<Change>, plan: Plan, durable: int, expired: set<nat>, w: World, cfg: Config)
    requires Plans(q, q', plan, durable, expired, w, cfg)
    ensures var drops := set i: nat | i < |q| && (i in plan.actions || i in plan.refused) && q[i].kind.Dropped? && cfg.mode.Replicate?;
      if !cfg.allowMass && cfg.limit >= 0 && |drops| > cfg.limit then forall i :: i in plan.refused <==> i in drops
      else plan.refused == []
  {
    var drops := set i: nat | i < |q| && (i in plan.actions || i in plan.refused) && q[i].kind.Dropped? && cfg.mode.Replicate?;
    var doomed := Destruction(q, durable, expired, w, cfg);
    forall i: nat
      ensures i in drops <==> i in doomed
    {
      if i < |q| { assert Accounted(q, q', plan, durable, expired, w, i); }
    }
    SizeOf(doomed);
    assert Elements(doomed) == drops;
  }

  /** Every fenced action and every partition event lies behind the durable position. */
  lemma FenceHolds(q: seq<Change>, q': seq<Change>, plan: Plan, durable: int, w: World, cfg: Config, i: nat)
    requires Plans(q, q', plan, durable, {}, w, cfg) && (i in plan.actions || i in plan.events)
    ensures i < |q| && Live(q[i].stage) && (q[i].kind.Dropped? || q[i].kind.Recreated? || q[i].kind.Schema? || q[i].kind.Partition? ==> q[i].lsn <= durable)
  {
    assert Accounted(q, q', plan, durable, {}, w, i);
  }

  /** A due change is an action, an event, a refusal or deferral that stays live, or a
      supersession the destination justifies: exactly one of these. */
  lemma DueOnce(q: seq<Change>, q': seq<Change>, plan: Plan, durable: int, expired: set<nat>, w: World, cfg: Config, i: nat)
    requires Plans(q, q', plan, durable, expired, w, cfg) && i < |q|
    requires Live(q[i].stage) && Opens(q[i], i, durable, expired)
    ensures (if i in plan.actions then 1 else 0) + (if i in plan.events then 1 else 0) + (if i in plan.refused then 1 else 0)
      + (if q'[i].stage.Deferred? then 1 else 0) + (if q'[i].stage.Superseded? then 1 else 0) == 1
    ensures q'[i].stage.Superseded? <==>
      (q[i].kind.Dropped? && w.lifecycle(q[i].name).Gone?) ||
      (q[i].kind.Recreated? && w.lifecycle(q[i].name).Complete? && w.imageCurrent(i))
    ensures i in plan.refused ==> q'[i].stage.Refused?
    ensures i in plan.actions || i in plan.events ==> q'[i].stage.Due?
  {
    assert Accounted(q, q', plan, durable, expired, w, i);
  }

  /** A change whose fence has not opened waits, live, and touches nothing. */
  lemma ClosedFenceWaits(q: seq<Change>, q': seq<Change>, plan: Plan, durable: int, expired: set<nat>, w: World, cfg: Config, i: nat)
    requires Plans(q, q', plan, durable, expired, w, cfg) && i < |q|
    requires Live(q[i].stage) && !Opens(q[i], i, durable, expired)
    ensures i !in plan.actions && i !in plan.events && i !in plan.refused && q'[i].stage.Deferred?
  {
    assert Accounted(q, q', plan, durable, expired, w, i);
  }

  /** The tables a plan destroys: drops where drops are replicated. */
  ghost function Destroyed(q: seq<Change>, plan: Plan, cfg: Config): set<nat> {
    set i | i in plan.actions && i < |q| && q[i].kind.Dropped? && cfg.mode.Replicate?
  }

  function Elements(r: seq<nat>): (s: set<nat>)
    ensures forall i :: i in s <==> i in r
  {
    if r == [] then {} else Elements(r[..|r| - 1]) + {r[|r| - 1]}
  }

  lemma {:induction false} SizeOf(r: seq<nat>)
    requires Rising(r)
    ensures |Elements(r)| == |r|
  {
    if r != [] {
      SizeOf(r[..|r| - 1]);
      assert r[|r| - 1] !in r[..|r| - 1];
    }
  }

  /** With mass drops off and a limit that counts, a plan destroys at most that many tables,
      and when more were eligible it destroys none and refuses them all. */
  lemma BreakerBounds(q: seq<Change>, q': seq<Change>, plan: Plan, durable: int, expired: set<nat>, w: World, cfg: Config)
    requires Plans(q, q', plan, durable, expired, w, cfg) && !cfg.allowMass && cfg.limit >= 0
    ensures |Destroyed(q, plan, cfg)| <= cfg.limit
    ensures plan.refused != [] ==> Destroyed(q, plan, cfg) == {} && |plan.refused| > cfg.limit && plan.refused == Destruction(q, durable, expired, w, cfg)
  {
    var drops := Destruction(q, durable, expired, w, cfg);
    forall i | i in Destroyed(q, plan, cfg)
      ensures i in drops && i !in plan.refused
    {
      assert Accounted(q, q', plan, durable, expired, w, i);
    }
    SizeOf(drops);
    if plan.refused == [] {
      Smaller(Destroyed(q, plan, cfg), Elements(drops));
    } else {
      assert Destroyed(q, plan, cfg) == {};
    }
  }

  lemma {:induction false} Smaller(a: set<nat>, b: set<nat>)
    requires a <= b
    ensures |a| <= |b|
    decreases a
  {
    if a != {} {
      var x :| x in a;
      Smaller(a - {x}, b - {x});
    }
  }

  /** Only physical destruction can be refused: a recreate keeps its image and passes. */
  lemma OnlyDestructionRefused(q: seq<Change>, q': seq<Change>, plan: Plan, durable: int, expired: set<nat>, w: World, cfg: Config, i: nat)
    requires Plans(q, q', plan, durable, expired, w, cfg) && i in plan.refused
    ensures i < |q| && q[i].kind.Dropped? && cfg.mode.Replicate? && !cfg.allowMass && 0 <= cfg.limit < |plan.refused|
  {
  }

  // ---------------------------------------------------------------------------
  // The planner
  // ---------------------------------------------------------------------------

  class Coordinator {
    const cfg: Config
    var queue: seq<Change>

    constructor (cfg: Config, queue: seq<Change>)
      ensures this.cfg == cfg && this.queue == queue
    {
      this.cfg, this.queue := cfg, queue;
    }

    /** `due`: open the fences the durable position has passed, and defer the rest. */
    method TakeDue(durable: int, expired: set<nat>) returns (due: seq<nat>)
      modifies this
      ensures |queue| == |old(queue)|
      ensures forall i :: 0 <= i < |queue| ==> queue[i] == Aged(old(queue)[i], i, durable, expired)
      ensures due == Positions(|queue|, DueOf(old(queue), durable, expired))
    {
      due := [];
      ghost var was := queue;
      for n := 0 to |queue|
        invariant |queue| == |was|
        invariant forall i :: 0 <= i < n ==> queue[i] == Aged(was[i], i, durable, expired)
        invariant forall i :: n <= i < |queue| ==> queue[i] == was[i]
        invariant due == Positions(n, DueOf(was, durable, expired))
      {
        var c := queue[n];
        if Live(c.stage) {
          if Opens(c, n, durable, expired) {
            queue := queue[n := c.(stage := Due)];
            due := due + [n];
          } else {
            queue := queue[n := c.(stage := Deferred)];
          }
        }
      }
    }

    /** Judge every due change, in order. */
    method Filter(due: seq<nat>, w: World, ghost was: seq<Change>, durable: int, expired: set<nat>)
      returns (eligible: seq<nat>, events: seq<nat>)
      requires |queue| == |was| && due == Positions(|was|, DueOf(was, durable, expired))
      requires forall i :: 0 <= i < |was| ==> queue[i] == Aged(was[i], i, durable, expired)
      modifies this`queue
      ensures |queue| == |was| && Rising(eligible) && Rising(events)
      ensures forall i :: 0 <= i < |was| ==> queue[i] == Settled(was[i], i, durable, expired, w)
      ensures forall i :: i in eligible <==> FateAt(was, i, durable, expired, w).Eligible?
      ensures forall i :: i in events <==> FateAt(was, i, durable, expired, w).Event?
    {
      hide Judge, Rising, Positions;
      eligible, events := [], [];
      FenceSettles(queue, was, durable, expired, w, due);
      assert Rising(eligible) && Rising(events) by { NothingRises(); }
      for k := 0 to |due|
        invariant |queue| == |was| && Rising(eligible) && Rising(events)
        invariant forall i :: 0 <= i < |was| && i !in due[k..] ==> queue[i] == Settled(was[i], i, durable, expired, w)
        invariant forall i :: 0 <= i < |was| && i in due[k..] ==> queue[i] == was[i].(stage := Due)
        invariant forall i :: i in eligible <==> i in due[..k] && FateAt(was, i, durable, expired, w).Eligible?
        invariant forall i :: i in events <==> i in due[..k] && FateAt(was, i, durable, expired, w).Event?
      {
        var i := due[k];
        assert i in due && i in DueOf(was, durable, expired);
        var c := queue[i];
        DueSplit(due, k);
        RisingAppend(eligible, i);
        RisingAppend(events, i);
        var fate := Judge(c, i, w);
        JudgedAlike(was[i], i, durable, expired, w);
        if fate.Event? { events := events + [i]; }
        if fate.Eligible? { eligible := eligible + [i]; }
        queue := queue[i := c.(stage := StageOf(fate, c.stage))];
      }
      assert due[..|due|] == due;
    }

    /** All of the eligible destruction, or, past the limit, none of it. */
    method Break(eligible: seq<nat>) returns (actions: seq<nat>, refused: seq<nat>)
      requires Rising(eligible) && forall i :: i in eligible ==> i < |queue| && queue[i].stage.Due?
      modifies this
      ensures |queue| == |old(queue)| && Rising(actions) && Rising(refused)
      ensures forall i :: i in eligible <==> i in actions || i in refused
      ensures forall i :: i in refused ==> i !in actions && i < |queue| && Destroys(old(queue)[i], cfg)
      ensures forall i :: 0 <= i < |queue| ==> queue[i] == (if i in refused then old(queue)[i].(stage := Refused) else old(queue)[i])
      ensures var drops := Positions(|queue|, Doomed(old(queue), eligible, cfg));
        if !cfg.allowMass && cfg.limit >= 0 && |drops| > cfg.limit then refused == drops else refused == []
    {
      var drops := [];
      actions := [];
      ghost var doomed := Doomed(queue, eligible, cfg);
      for k := 0 to |eligible|
        invariant queue == old(queue) && Rising(drops) && Rising(actions)
        invariant forall i :: i in drops <==> i in eligible[..k] && i in doomed
        invariant forall i :: i in actions <==> i in eligible[..k] && i !in doomed
      {
        DueSplit(eligible, k);
        RisingAppend(drops, eligible[k]);
        RisingAppend(actions, eligible[k]);
        assert eligible[k] in eligible;
        if Destroys(queue[eligible[k]], cfg) {
          drops := drops + [eligible[k]];
        } else {
          actions := actions + [eligible[k]];
        }
      }
      assert eligible[..|eligible|] == eligible;
      RisingUnique(drops, Positions(|queue|, doomed));
      if cfg.allowMass || cfg.limit < 0 || |drops| <= cfg.limit { return eligible, []; }
      refused := drops;
      ghost var was := queue;
      for k := 0 to |refused|
        invariant |queue| == |was|
        invariant forall i :: 0 <= i < |was| ==> queue[i] == if i in refused[..k] then was[i].(stage := Refused) else was[i]
      {
        DueSplit(refused, k);
        assert refused[k] in refused;
        queue := queue[refused[k] := queue[refused[k]].(stage := Refused)];
      }
      assert refused[..|refused|] == refused;
    }

    method MakePlan(durable: int, expired: set<nat>, w: World) returns (plan: Plan)
      modifies this
      ensures if cfg.mode.Ignore? then plan == Plan([], [], []) && queue == old(queue)
              else Plans(old(queue), queue, plan, durable, expired, w, cfg)
    {
      if cfg.mode.Ignore? { return Plan([], [], []); }
      ghost var was := queue;
      var due := TakeDue(durable, expired);
      var eligible, events := Filter(due, w, was, durable, expired);
      ghost var settled := queue;
      var actions, refused := Break(eligible);
      plan := Plan(actions, refused, events);
      SameDestruction(was, settled, eligible, durable, expired, w, cfg);
    }
  }

  /** After the fence and the filter. */
  function Settled(c: Change, i: nat, durable: int, expired: set<nat>, w: World): Change {
    c.(stage := StageOf(FateOf(c, i, durable, expired, w), c.stage))
  }

  ghost function Doomed(q: seq<Change>, eligible: seq<nat>, cfg: Config): set<nat> {
    set i: nat | i < |q| && i in eligible && Destroys(q[i], cfg)
  }

  lemma DueSplit(r: seq<nat>, k: nat)
    requires Rising(r) && k < |r|
    ensures r[k] !in r[..k] && r[k] !in r[k + 1..] && r[..k + 1] == r[..k] + [r[k]]
    ensures forall i :: i in r[k..] <==> i == r[k] || i in r[k + 1..]
    ensures forall i :: i in r[..k] ==> i < r[k]
  {
    assert r[k..] == [r[k]] + r[k + 1..];
  }

  lemma NothingRises()
    ensures Rising([])
  {
  }

  lemma JudgedAlike(c: Change, i: nat, durable: int, expired: set<nat>, w: World)
    requires Live(c.stage) && Opens(c, i, durable, expired)
    ensures Judge(c.(stage := Due), i, w) == FateOf(c, i, durable, expired, w)
    ensures c.(stage := Due).(stage := StageOf(Judge(c.(stage := Due), i, w), Due)) == Settled(c, i, durable, expired, w)
  {
  }

  /** What is not due is settled by the fence alone. */
  lemma FenceSettles(aged: seq<Change>, was: seq<Change>, durable: int, expired: set<nat>, w: World, due: seq<nat>)
    requires |aged| == |was| && forall i :: 0 <= i < |was| ==> aged[i] == Aged(was[i], i, durable, expired)
    requires forall i :: i in due <==> i in DueOf(was, durable, expired)
    ensures forall i :: 0 <= i < |was| && i !in due ==> aged[i] == Settled(was[i], i, durable, expired, w)
    ensures forall i :: 0 <= i < |was| && i in due ==> aged[i] == was[i].(stage := Due)
  {
  }

  lemma RisingAppend(r: seq<nat>, x: nat)
    ensures Rising(r) && (forall i :: i in r ==> i < x) ==> Rising(r + [x])
  {
    if Rising(r) && forall i :: i in r ==> i < x {
      assert forall a :: 0 <= a < |r| ==> r[a] in r;
    }
  }

  lemma {:induction false} RisingUnique(a: seq<nat>, b: seq<nat>)
    requires Rising(a) && Rising(b) && forall i :: i in a <==> i in b
    ensures a == b
    decreases |a|
  {
    assert b != [] ==> b[0] in b;
    if a != [] {
      assert a[0] in b && b[0] in a;
      assert a[0] == b[0];
      assert a == [a[0]] + a[1..] && b == [b[0]] + b[1..];
      forall i
        ensures i in a[1..] <==> i in b[1..]
      {
        assert i in a[1..] ==> i > a[0] && i in b;
        assert i in b[1..] ==> i > b[0] && i in a;
      }
      RisingUnique(a[1..], b[1..]);
    }
  }

  lemma SameDestruction(q: seq<Change>, settled: seq<Change>, eligible: seq<nat>, durable: int, expired: set<nat>, w: World, cfg: Config)
    requires |settled| == |q| && forall i :: 0 <= i < |q| ==> settled[i] == Settled(q[i], i, durable, expired, w)
    requires forall i :: i in eligible <==> FateAt(q, i, durable, expired, w).Eligible?
    ensures Positions(|q|, Doomed(settled, eligible, cfg)) == Destruction(q, durable, expired, w, cfg)
  {
    assert Doomed(settled, eligible, cfg)
        == set i: nat | i < |q| && FateOf(q[i], i, durable, expired, w).Eligible? && Destroys(q[i], cfg);
  }

  ghost function DueOf(q: seq<Change>, durable: int, expired: set<nat>): set<nat> {
    set i: nat | i < |q| && Live(q[i].stage) && Opens(q[i], i, durable, expired)
  }

  function Aged(c: Change, i: nat, durable: int, expired: set<nat>): Change {
    if !Live(c.stage) then c else c.(stage := if Opens(c, i, durable, expired) then Due else Deferred)
  }
}
