/** The disposable runtime root of scripts/runtime_state_cli.py: a directory whose life is
    read back from durable markers on every start.  A command may stop between any two
    durable file operations; the next one classifies what it finds and goes on.

    The project lock is held, so only these commands (and the child a `run` command
    launches, which writes payload) touch the directory, and each single-file operation
    is atomic. */
module RuntimeRoot {
  import opened Options
  import opened Sequences

  datatype Node = File | Link | Directory(entries: seq<Entry>)

  datatype Entry = Entry(name: string, node: Node)

  /** Whether a sentinel holds exactly this instance's bytes. */
  datatype Marker = Exact | Foreign

  datatype Root = Root(ino: nat, sentinel: Option<Marker>, quarantine: bool, payload: seq<Entry>)

  datatype Staged = Staged(name: string, root: Root)

  /** The parent's completion record: which directory it finished, or unreadable. */
  datatype Completion = Completed(ino: nat) | Garbled

  /** What the runtime parent holds for one instance. */
  datatype Disk = Disk(public: Option<Root>, staged: seq<Staged>, malformed: set<string>, record: Option<Completion>)

  datatype Phase = Absent | Provisioning | Active | Quarantining | CompletionRecorded | DeletedRecorded

  const EMPTY := Disk(None, [], {}, None)

  /** Every combination of durable markers is one of six phases or is refused. */
  function Classify(d: Disk): Option<Phase> {
    if d.malformed != {} || |d.staged| > 1 then None
    else if d.staged != [] then
      var root := d.staged[0].root;
      if d.public.Some? || d.record.Some? || root.payload != [] || root.quarantine || root.sentinel == Some(Foreign)
      then None else Some(Provisioning)
    else if d.public.Some? then
      var root := d.public.value;
      if d.record.Some? then
        if d.record.value == Completed(root.ino) then Some(CompletionRecorded) else None
      else if root.sentinel != Some(Exact) then None
      else if root.quarantine then Some(Quarantining) else Some(Active)
    else if d.record.Some? then
      if d.record.value.Garbled? then None else Some(DeletedRecorded)
    else Some(Absent)
  }

  // ---------------------------------------------------------------------------
  // Payload trees
  // ---------------------------------------------------------------------------

  function Weight(entries: seq<Entry>): nat {
    if entries == [] then 0 else NodeWeight(entries[0].node) + Weight(entries[1..])
  }

  function NodeWeight(n: Node): (w: nat)
    ensures w > 0
  {
    match n
    case Directory(entries) => 1 + Weight(entries)
    case _ => 1
  }

  predicate LinkFree(entries: seq<Entry>)
    decreases Weight(entries)
  {
    entries == [] || (NodeLinkFree(entries[0].node) && LinkFree(entries[1..]))
  }

  predicate NodeLinkFree(n: Node)
    decreases NodeWeight(n), 0
  {
    match n
    case File => true
    case Link => false
    case Directory(entries) => LinkFree(entries)
  }

  /** `validate_tree`: refuse any symbolic link before anything is changed. */
  method ValidateTree(entries: seq<Entry>) returns (ok: bool)
    ensures ok == LinkFree(entries)
    decreases Weight(entries)
  {
    var left := entries;
    while left != []
      invariant Weight(left) <= Weight(entries)
      invariant LinkFree(left) == LinkFree(entries)
      decreases |left|
    {
      match left[0].node {
        case File =>
        case Link => return false;
        case Directory(children) =>
          var fine := ValidateTree(children);
          if !fine { return false; }
      }
      left := left[1..];
    }
    return true;
  }

  datatype End = Done | Refused | Crashed | Faulted

  /** `delete_tree`, one file or emptied directory at a time, in listing order. */
  method DeleteTree(entries: seq<Entry>, crash: Crash) returns (left: seq<Entry>, end: End, rest: Crash)
    ensures end.Done? || end.Refused? || end.Crashed?
    ensures end.Done? ==> left == []
    ensures end.Done? ==> LinkFree(entries)
    ensures LinkFree(entries) ==> LinkFree(left) && !end.Refused?
    ensures crash.None? ==> rest.None? && !end.Crashed?
    decreases Weight(entries)
  {
    left, rest := entries, crash;
    while left != []
      invariant Weight(left) <= Weight(entries)
      invariant LinkFree(left) == LinkFree(entries)
      invariant crash.None? ==> rest.None?
      decreases |left|
    {
      match left[0].node {
        case Link => return left, Refused, rest;
        case File =>
        case Directory(children) =>
          var remains, inner, unspent := DeleteTree(children, rest);
          rest := unspent;
          if !inner.Done? {
            return [Entry(left[0].name, Directory(remains))] + left[1..], inner, rest;
          }
          left := [Entry(left[0].name, Directory([]))] + left[1..];
      }
      if rest == Some(0) { return left, Crashed, rest; }
      rest := Spend(rest);
      left := left[1..];
    }
    return left, Done, rest;
  }

  // ---------------------------------------------------------------------------
  // What every durable step keeps
  // ---------------------------------------------------------------------------

  /** A classified disk whose quarantined payload holds no link and whose completed root
      holds no payload. */
  ghost predicate Good(d: Disk) {
    Classify(d).Some? &&
    (Classify(d) == Some(Quarantining) ==> LinkFree(d.public.value.payload)) &&
    (Classify(d) == Some(CompletionRecorded) ==> d.public.value.payload == [])
  }

  /** The declared lifecycle, and the one step only the disk shows: rolling back after
      publication, where the lifecycle in memory was still provisioning. */
  predicate Follows(p: Phase, q: Phase) {
    match p
    case Absent => q == Absent || q == Provisioning
    case Provisioning => q == Provisioning || q == Active || q == Absent
    case Active => q == Active || q == Quarantining || q == Absent
    case Quarantining => q == Quarantining || q == CompletionRecorded
    case CompletionRecorded => q == CompletionRecorded || q == DeletedRecorded
    case DeletedRecorded => q == DeletedRecorded || q == Absent
  }

  ghost predicate Next(a: Disk, b: Disk) {
    Good(a) && Good(b) && Follows(Classify(a).value, Classify(b).value)
  }

  ghost predicate Linked(trace: seq<Disk>) {
    (forall i :: 0 <= i < |trace| ==> Good(trace[i])) &&
    forall i, j :: 0 <= i && j == i + 1 && j < |trace| ==> Next(trace[i], trace[j])
  }

  predicate Bare(root: Root) {
    root.sentinel.None? && !root.quarantine && root.payload == []
  }

  predicate Doomed(p: Phase) {
    p.Quarantining? || p.CompletionRecorded? || p.DeletedRecorded?
  }

  /** Once the root is quarantined it is never active again before it was absent. */
  lemma {:induction false} NoReactivation(trace: seq<Disk>, i: nat, j: nat)
    requires Linked(trace) && i < j < |trace|
    requires Doomed(Classify(trace[i]).value) && !Doomed(Classify(trace[j]).value)
    ensures exists k :: i < k <= j && Classify(trace[k]) == Some(Absent)
    decreases j - i
  {
    assert Next(trace[i], trace[i + 1]);
    if Doomed(Classify(trace[i + 1]).value) {
      assert i + 1 != j;
      NoReactivation(trace, i + 1, j);
    }
  }

  /** An exception provisioning may meet. */
  datatype Fault = NoFault | AfterOpen | AfterSentinel | AfterPublish

  datatype Kind = Prepare | Run(child: Option<seq<Entry>>) | Clean

  /** One invocation: what the process is asked, where it dies, what fails, and what the
      operating system picks (private name, inode, order of a set's elements, and the
      payload the child leaves). */
  datatype Command = Command(kind: Kind, crash: Crash, fault: Fault, name: string, ino: nat, sentinelFirst: bool)

  predicate Malformed(c: Command) {
    c.kind.Run? && c.kind.child.None?
  }

  /** The one crash that leaves a disk no command can classify: inside the undo of a root
      already published, counted from the start of the command. */
  predicate Fatal(d: Disk, c: Command) {
    !c.kind.Clean? && !Malformed(c) && c.fault.AfterPublish? &&
    ((Classify(d) == Some(Absent) && c.crash == Some(4)) || (Classify(d) == Some(Provisioning) && c.crash == Some(6)))
  }

  /** An active root a clean must not touch. */
  predicate Linking(d: Disk) {
    Classify(d) == Some(Active) && !LinkFree(d.public.value.payload)
  }

  /** What one command does to the disk. */
  ghost predicate Executes(d: Disk, c: Command, end: End, d': Disk) {
    if Classify(d).None? || Malformed(c) then end == Refused && d' == d
    else
      (Classify(d').None? <==> Fatal(d, c)) && (Classify(d').Some? ==> Good(d')) && (end.Crashed? ==> c.crash.Some?) &&
      if c.kind.Clean? then
        !end.Crashed? ==> if Linking(d) then end == Refused && d' == d else end == Done && Classify(d') == Some(Absent)
      else if Doomed(Classify(d).value) then end == Refused && d' == d
      else Launches(d, c, end, d')
  }

  /** Preparing or running over a root that is absent, half provisioned or active. */
  ghost predicate Launches(d: Disk, c: Command, end: End, d': Disk)
    requires !Malformed(c) && !c.kind.Clean?
  {
    !end.Refused? &&
    (end.Done? ==> Classify(d') == Some(Active) && (c.kind.Run? ==> d'.public.value.payload == c.kind.child.value)) &&
    (end.Faulted? ==> Classify(d') == Some(Absent) && !c.fault.NoFault?) &&
    (Classify(d) == Some(Active) ==> end.Done? && (c.kind.Prepare? ==> d' == d)) &&
    (c.crash.None? && c.fault.NoFault? ==> end.Done?)
  }

  /** The durable steps of a command lead from the disk before it to the one after it. */
  ghost predicate Wrote(d: Disk, steps: seq<Disk>, d': Disk) {
    Classify(d').Some? ==> d' == if steps == [] then d else steps[|steps| - 1]
  }

  /** What a command does, by what lies on the disk.  A root that carries the quarantine marker,
      and one the parent recorded as finished, is refused to every prepare and run, unchanged; a
      launch that succeeds leaves one public root with its own sentinel, no marker and no record;
      a clean that succeeds leaves nothing; and a public root without its sentinel, a record of
      another directory and a foreign private root are refused to everything. */
  lemma DiskTells(d: Disk, c: Command, end: End, d': Disk)
    requires Executes(d, c, end, d')
    ensures !c.kind.Clean? && ((d.public.Some? && d.public.value.quarantine) || d.record.Some?) ==> end == Refused && d' == d
    ensures !c.kind.Clean? && end.Done? ==>
      d'.public.Some? && d'.public.value.sentinel == Some(Exact) && !d'.public.value.quarantine && d'.record.None? &&
      d'.staged == [] && d'.malformed == {}
    ensures c.kind.Clean? && end.Done? ==> d' == EMPTY
    ensures d.public.Some? && d.record.None? && d.public.value.sentinel != Some(Exact) ==> end == Refused && d' == d
    ensures d.public.Some? && d.record.Some? && d.record != Some(Completed(d.public.value.ino)) ==> end == Refused && d' == d
    ensures d.malformed != {} || |d.staged| > 1 || (|d.staged| == 1 && d.staged[0].root.sentinel == Some(Foreign)) ==>
      end == Refused && d' == d
    ensures var own := d.public.Some? && d.public.value.sentinel == Some(Exact) && d.record.None? && d.staged == [] && d.malformed == {};
      own && c.kind.Clean? && end.Refused? ==> !d.public.value.quarantine && !LinkFree(d.public.value.payload)
  {
    hide LinkFree;
  }

  class Runtime {
    var disk: Disk
    ghost var trace: seq<Disk>

    constructor ()
      ensures Valid() && disk == EMPTY && trace == [EMPTY]
    {
      disk := EMPTY;
      trace := [EMPTY];
    }

    ghost predicate Valid()
      reads this
    {
      trace != [] && trace[|trace| - 1] == disk && Good(disk) && Linked(trace)
    }

    /** One durable operation. */
    method Step(d: Disk)
      requires Valid() && Next(disk, d)
      modifies this
      ensures Valid() && disk == d && trace == old(trace) + [d] && Prefix(old(trace), trace)
    {
      disk := d;
      trace := trace + [d];
    }

    /** `rmdir` succeeds on an empty directory only. */
    method RemovePublic()
      requires Valid() && disk.public.Some? && Bare(disk.public.value) && Next(disk, disk.(public := None))
      modifies this
      ensures Valid() && disk == old(disk).(public := None) && trace == old(trace) + [disk] && Prefix(old(trace), trace)
    {
      Step(disk.(public := None));
    }

    method RemoveStaged()
      requires Valid() && |disk.staged| == 1 && Bare(disk.staged[0].root) && Next(disk, disk.(staged := []))
      modifies this
      ensures Valid() && disk == old(disk).(staged := []) && trace == old(trace) + [disk] && Prefix(old(trace), trace)
    {
      Step(disk.(staged := []));
    }

    /** Build the root privately, mark it, and publish it under its name in one rename;
        undo on an exception.  The one unrecoverable point is dying inside the undo of a
        root already published. */
    method Provision(name: string, ino: nat, fault: Fault, crash: Crash) returns (end: End)
      requires Valid() && Classify(disk) == Some(Absent)
      modifies this
      ensures Prefix(old(trace), trace)
      ensures end.Done? ==> Classify(disk) == Some(Active) && disk.public.value.payload == []
      ensures end.Faulted? ==> Classify(disk) == Some(Absent)
      ensures !end.Refused? && (end.Crashed? ==> crash.Some?)
      ensures (end.Done? ==> fault.NoFault?) && (end.Faulted? ==> !fault.NoFault?)
      ensures Valid() <==> !(fault.AfterPublish? && crash == Some(4))
      ensures !Valid() ==> Classify(disk).None? && end.Crashed? && Linked(trace)
    {
      hide Linked;
      if crash == Some(0) { return Crashed; }
      Step(disk.(staged := [Staged(name, Root(ino, None, false, []))]));
      if fault.AfterOpen? {
        end := Withdraw(Spend(crash));
        return if end.Done? then Faulted else end;
      }
      if crash == Some(1) { return Crashed; }
      Step(disk.(staged := [Staged(name, Root(ino, Some(Exact), false, []))]));
      if fault.AfterSentinel? {
        end := Withdraw(Spend(Spend(crash)));
        return if end.Done? then Faulted else end;
      }
      if crash == Some(2) { return Crashed; }
      Step(disk.(staged := [], public := Some(disk.staged[0].root)));
      if fault.NoFault? { return Done; }
      if crash == Some(3) { return Crashed; }
      if crash == Some(4) {
        disk := disk.(public := Some(disk.public.value.(sentinel := None)));
        return Crashed;
      }
      Step(disk.(public := None));
      return Faulted;
    }

    /** Remove a private root: its sentinel, then the directory. */
    method Withdraw(crash: Crash) returns (end: End)
      requires Valid() && Classify(disk) == Some(Provisioning)
      modifies this
      ensures Valid() && Prefix(old(trace), trace)
      ensures if end == Done then Classify(disk) == Some(Absent) else end == Crashed && (crash == Some(0) || crash == Some(1))
    {
      if crash == Some(0) { return Crashed; }
      Step(disk.(staged := [Staged(disk.staged[0].name, disk.staged[0].root.(sentinel := None))]));
      if crash == Some(1) { return Crashed; }
      RemoveStaged();
      return Done;
    }

    /** `_finish_recorded`: markers, directory, record, in that order. */
    method FinishRecorded(crash: Crash, sentinelFirst: bool) returns (end: End)
      requires Valid() && Classify(disk) == Some(CompletionRecorded)
      modifies this
      ensures Valid() && Prefix(old(trace), trace)
      ensures if end == Done then Classify(disk) == Some(Absent) else end == Crashed && crash.Some?
    {
      hide Linked;
      if disk.public.value.payload != [] { assert false; }
      if crash == Some(0) { return Crashed; }
      var root := disk.public.value;
      root := if sentinelFirst then root.(sentinel := None) else root.(quarantine := false);
      Step(disk.(public := Some(root)));
      if crash == Some(1) { return Crashed; }
      Step(disk.(public := Some(root.(sentinel := None, quarantine := false))));
      if crash == Some(2) { return Crashed; }
      RemovePublic();
      if crash == Some(3) { return Crashed; }
      Step(disk.(record := None));
      return Done;
    }

    /** The quarantine marker is written once, over a payload without links. */
    method Quarantine(crash: Crash) returns (end: End)
      requires Valid() && Classify(disk) == Some(Active)
      modifies this
      ensures Valid() && Prefix(old(trace), trace)
      ensures end.Refused? <==> !LinkFree(old(disk.public.value.payload))
      ensures end.Done? ==> disk == old(disk).(public := Some(old(disk.public.value).(quarantine := true)))
      ensures !end.Done? ==> disk == old(disk)
      ensures !end.Faulted? && (end.Crashed? <==> crash == Some(0) && !end.Refused?)
    {
      hide Linked;
      var fine := ValidateTree(disk.public.value.payload);
      if !fine { return Refused; }
      if crash == Some(0) { return Crashed; }
      Step(disk.(public := Some(disk.public.value.(quarantine := true))));
      return Done;
    }

    /** Delete a quarantined payload and record that it is gone. */
    method DeletePayload(crash: Crash) returns (end: End, rest: Crash)
      requires Valid() && Classify(disk) == Some(Quarantining)
      modifies this
      ensures Valid() && Prefix(old(trace), trace)
      ensures if end == Done then Classify(disk) == Some(CompletionRecorded) else end == Crashed && crash.Some?
      ensures crash.None? ==> rest.None?
    {
      hide Linked, LinkFree;
      var remains, deleted, unspent := DeleteTree(disk.public.value.payload, crash);
      Step(disk.(public := Some(disk.public.value.(payload := remains))));
      if deleted.Crashed? || unspent == Some(0) { return Crashed, unspent; }
      Step(disk.(record := Some(Completed(disk.public.value.ino))));
      return Done, Spend(unspent);
    }

    /** Quarantine, delete, record completion, finish. A link in an active root refuses
        the command before anything changes. */
    method CleanRoot(crash: Crash, sentinelFirst: bool) returns (end: End)
      requires Valid() && (Classify(disk) == Some(Active) || Classify(disk) == Some(Quarantining))
      modifies this
      ensures Valid() && Prefix(old(trace), trace)
      ensures end.Refused? <==> !LinkFree(old(disk.public.value.payload))
      ensures end.Refused? ==> disk == old(disk)
      ensures end.Done? ==> Classify(disk) == Some(Absent)
      ensures !end.Faulted? && (end.Crashed? ==> crash.Some?)
    {
      hide Linked, LinkFree;
      var rest := crash;
      if Classify(disk) == Some(Active) {
        end := Quarantine(crash);
        if !end.Done? { return; }
        rest := Spend(crash);
      }
      end, rest := DeletePayload(rest);
      if end.Done? { end := FinishRecorded(rest, sentinelFirst); }
    }

    /** The disk is the last of the trace, or no longer classified. */
    ghost predicate Tracked()
      reads this
    {
      trace != [] && Linked(trace) && ((trace[|trace| - 1] == disk && Good(disk)) || Classify(disk).None?)
    }

    /** `_run`: classify, reconcile, act. */
    method Execute(c: Command) returns (end: End)
      requires Tracked()
      modifies this
      ensures Tracked() && Prefix(old(trace), trace) && Executes(old(disk), c, end, disk)
      ensures Classify(old(disk)).None? ==> trace == old(trace)
    {
      hide Linked, LinkFree;
      if c.kind.Run? && c.kind.child.None? { return Refused; }
      if Classify(disk).None? { return Refused; }
      var crash := c.crash;
      if Classify(disk) == Some(Provisioning) {
        end := Withdraw(crash);
        if end.Crashed? { return; }
        crash := Spend(Spend(crash));
      }
      if c.kind.Clean? {
        end := CleanFrom(crash, c.sentinelFirst);
        return;
      }
      if Doomed(Classify(disk).value) { return Refused; }
      if Classify(disk) == Some(Absent) {
        end := Provision(c.name, c.ino, c.fault, crash);
        if !end.Done? { return; }
      }
      if c.kind.Run? {
        // The child holds the project lock too, and writes payload only.
        Step(disk.(public := Some(disk.public.value.(payload := c.kind.child.value))));
      }
      return Done;
    }

    method CleanFrom(crash: Crash, sentinelFirst: bool) returns (end: End)
      requires Valid() && Classify(disk) != Some(Provisioning)
      modifies this
      ensures Valid() && Prefix(old(trace), trace)
      ensures end.Crashed? ==> crash.Some?
      ensures !end.Crashed? ==>
        if Classify(old(disk)) == Some(Active) && !LinkFree(old(disk).public.value.payload)
        then end == Refused && disk == old(disk)
        else end == Done && Classify(disk) == Some(Absent)
    {
      match Classify(disk).value {
        case Active | Quarantining => end := CleanRoot(crash, sentinelFirst);
        case CompletionRecorded => end := FinishRecorded(crash, sentinelFirst);
        case DeletedRecorded =>
          if crash == Some(0) { return Crashed; }
          Step(disk.(record := None));
          return Done;
        case Absent => return Done;
        case Provisioning => assert false;
      }
    }
  }

  /** Every state of any sequence of commands, each dying wherever it dies: the disk before
      and after each command, how it ended, and what it wrote.  The disk is classified at
      every point unless some command met the one fatal point, after which every command
      refuses; and no launch or preparation takes a doomed root back. */
  method Campaign(commands: seq<Command>)
    returns (disks: seq<Disk>, ends: seq<End>, ghost steps: seq<seq<Disk>>)
    ensures Ran(commands, disks, ends, |commands|)
    ensures Told(disks, steps, |commands|) && Linked([EMPTY] + Join(steps))
  {
    var r := new Runtime();
    disks, ends, steps := [EMPTY], [], [];
    assert [EMPTY] + Join(steps) == [EMPTY];
    assert Ran(commands, disks, ends, 0) && Told(disks, steps, 0);
    hide Linked, Executes, Wrote, Ran, Told;
    for i := 0 to |commands|
      invariant fresh(r) && r.Tracked() && r.trace == [EMPTY] + Join(steps)
      invariant Ran(commands, disks, ends, i) && Told(disks, steps, i) && disks != [] && disks[|disks| - 1] == r.disk
    {
      ghost var before, d := r.trace, r.disk;
      var end := r.Execute(commands[i]);
      ghost var wrote := r.trace[|before|..];
      ToldMore(commands, disks, ends, steps, i, end, wrote, r.disk, before, r.trace);
      disks, ends, steps := disks + [r.disk], ends + [end], steps + [wrote];
    }
  }

  /** The first `n` commands of a history: each acts on the disk the one before it left. */
  ghost predicate Ran(commands: seq<Command>, disks: seq<Disk>, ends: seq<End>, n: nat) {
    n <= |commands| && |disks| == n + 1 && |ends| == n && disks[0] == EMPTY &&
    forall i, j :: 0 <= i && j == i + 1 && j < |disks| ==> Executes(disks[i], commands[i], ends[i], disks[j])
  }

  /** And what each of them wrote leads from one disk to the next. */
  ghost predicate Told(disks: seq<Disk>, steps: seq<seq<Disk>>, n: nat) {
    |disks| == n + 1 && |steps| == n &&
    forall i, j :: 0 <= i && j == i + 1 && j < |disks| ==> Wrote(disks[i], steps[i], disks[j])
  }

  lemma ToldMore(commands: seq<Command>, disks: seq<Disk>, ends: seq<End>, steps: seq<seq<Disk>>, n: nat, end: End,
                 wrote: seq<Disk>, d: Disk, before: seq<Disk>, after: seq<Disk>)
    requires Ran(commands, disks, ends, n) && Told(disks, steps, n) && n < |commands| && before == [EMPTY] + Join(steps)
    requires Executes(disks[n], commands[n], end, d) && Prefix(before, after) && wrote == after[|before|..]
    requires before != [] && after != [] && (Classify(disks[n]).Some? ==> before[|before| - 1] == disks[n])
    requires Classify(d).Some? ==> after[|after| - 1] == d
    ensures Ran(commands, disks + [d], ends + [end], n + 1) && Told(disks + [d], steps + [wrote], n + 1)
    ensures after == [EMPTY] + Join(steps + [wrote])
  {
    hide Classify, Launches, Good, Fatal, Linking;
    assert (steps + [wrote])[..n] == steps;
    assert after == before + wrote;
    Leads(disks[n], commands[n], end, d, before, after, wrote);
    hide Executes, Wrote, Prefix;
  }

  lemma Leads(a: Disk, c: Command, end: End, d: Disk, before: seq<Disk>, after: seq<Disk>, wrote: seq<Disk>)
    requires Executes(a, c, end, d) && Prefix(before, after) && wrote == after[|before|..] && before != []
    requires (Classify(a).Some? ==> before[|before| - 1] == a) && (Classify(d).Some? ==> after[|after| - 1] == d)
    ensures Wrote(a, wrote, d)
  {
    hide Classify, Launches, Good, Fatal, Linking;
    if wrote == [] { assert after == before; } else { assert wrote[|wrote| - 1] == after[|after| - 1]; }
  }

  /** After any history one uninterrupted clean leaves nothing, unless the active root holds a
      symbolic link or the history met the fatal point; then it refuses and changes nothing. */
  method CleanUp(commands: seq<Command>) returns (before: Disk, after: Disk, end: End)
    ensures Classify(after) == Some(Absent) <==>
      Classify(before).Some? && !(Classify(before) == Some(Active) && !LinkFree(before.public.value.payload))
    ensures Classify(after) != Some(Absent) ==> after == before && end == Refused
  {
    var clean := Command(Clean, None, NoFault, "", 0, true);
    var disks, ends, _ := Campaign(commands + [clean]);
    before, after, end := disks[|commands|], disks[|commands| + 1], ends[|commands|];
    assert Executes(before, clean, end, after);
  }

  /** A root can come to hold a link: prepare it, and run a child that leaves one. */
  method LinkBlocksClean() returns (before: Disk, after: Disk, end: End)
    ensures Classify(before) == Some(Active) && !LinkFree(before.public.value.payload)
    ensures after == before && end == Refused
  {
    var prepare := Command(Prepare, None, NoFault, ".x.provision.1.0", 1, true);
    var run := Command(Run(Some([Entry("x", Link)])), None, NoFault, "", 0, true);
    var clean := Command(Clean, None, NoFault, "", 0, true);
    var disks, ends, _ := Campaign([prepare, run, clean]);
    assert Executes(disks[0], prepare, ends[0], disks[1]);
    assert Executes(disks[1], run, ends[1], disks[2]);
    assert Executes(disks[2], clean, ends[2], disks[3]);
    assert !LinkFree([Entry("x", Link)]);
    before, after, end := disks[2], disks[3], ends[2];
  }

  /** The fatal point is reached: provision, fail after publication, and die between the two
      steps of the undo. No later command is of any use. */
  method Strand(rest: seq<Command>) returns (disks: seq<Disk>, ends: seq<End>)
    ensures |disks| == |rest| + 2 && |ends| == |rest| + 1
    ensures forall i :: 1 <= i < |disks| ==> Classify(disks[i]).None?
    ensures forall i :: 1 <= i < |ends| ==> ends[i] == Refused
  {
    var fatal := Command(Prepare, Some(4), AfterPublish, ".x.provision.1.0", 1, true);
    var all := [fatal] + rest;
    var ds, es, _ := Campaign(all);
    disks, ends := ds, es;
    assert Executes(disks[0], fatal, ends[0], disks[1]);
    for i := 1 to |disks|
      invariant 1 <= i
      invariant forall k :: 1 <= k <= i && k < |disks| ==> Classify(disks[k]).None?
      invariant forall k :: 1 <= k < i && k < |ends| ==> ends[k] == Refused
    {
      if i < |all| {
        assert Executes(disks[i], all[i], ends[i], disks[i + 1]);
      }
    }
  }
}
