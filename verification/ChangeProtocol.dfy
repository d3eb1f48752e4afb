// Protected changes: apply, confirm, rollback by hand and rollback by the timer, as separate processes whose steps
// interleave. A step is one access to something shared: a lock, a state file, the target, the timer.
module ChangeProtocol {
  import opened Folds
  import opened ChangeTarget

  type Run = string

  datatype Role = Applying | Confirming | RollingBack

  datatype Pc =
    | Lock | Check | Prepare | WriteState | Arm | See | Abandon | GiveUp | Apply | ReadBack | SaveApplied
    | Note | SaveNote
    | Load | RbRead | RbWrite | RbVerify | Disarm | Complete | Ended | Crashed

  datatype Process = Process(role: Role, run: Run, pc: Pc, snapshot: Snapshot)

  /** What the processes share; confirmed and undone are the runs for which a confirm or a rollback has succeeded. */
  datatype Disk = Disk(
    states: map<Run, Snapshot>, targets: map<string, File>, applyLock: Option<Run>, locks: set<Run>, timers: set<Run>,
    confirmed: set<Run>, undone: set<Run>)

  /** The apply of a run, or a confirm or rollback, by hand or by the timer. */
  datatype Who = Applier(run: Run) | Command(id: nat)

  datatype State = State(disk: Disk, procs: map<Who, Process>)

  /** How the surroundings answer a step: whether the call succeeds, whether the timer is stopped or seen, what is
      listed, who owns the folder. */
  datatype Choice = Choice(ok: bool, seen: bool, listed: string, owner: nat)

  function Look(targets: map<string, File>, path: string): File {
    if path in targets then targets[path] else Absent
  }

  predicate Pending(states: map<Run, Snapshot>, r: Run) {
    r in states && !states[r].completed
  }

  /** A process gives back its lock. */
  function End(p: Process, d: Disk): (Process, Disk) {
    (p.(pc := Ended), if p.role == Applying then d.(applyLock := None) else d.(locks := d.locks - {p.run}))
  }

  function Goto(p: Process, pc: Pc, d: Disk): (Process, Disk) {
    (p.(pc := pc), d)
  }

  /** Where apply goes when the change itself fails. */
  function OnFailure(p: Process): Pc {
    if p.snapshot.kind == Rules && p.snapshot.appliedState == "" then Note else RbRead
  }

  // The steps of apply up to the change.

  function LockStep(p: Process, d: Disk, c: Choice): (Process, Disk) {
    if p.role == Applying then
      if d.applyLock.None? && c.ok then Goto(p, Check, d.(applyLock := Some(p.run))) else Goto(p, Ended, d)
    else
      if p.run !in d.locks && c.ok then Goto(p, Load, d.(locks := d.locks + {p.run})) else Goto(p, Ended, d)
  }

  function CheckStep(p: Process, d: Disk, c: Choice): (Process, Disk) {
    if !c.ok || exists r :: r in d.states && Pending(d.states, r) then End(p, d) else Goto(p, Prepare, d)
  }

  function PrepareStep(p: Process, d: Disk, c: Choice): (Process, Disk) {
    var before := Look(d.targets, p.snapshot.path);
    if !c.ok then End(p, d)
    else
      var taken := p.snapshot.(before := before, owner := if before.Present? then before.owner
        else c.owner, appliedState := "", completed := false);
      Goto(p.(snapshot := taken), WriteState, d)
  }

  /** Writes the state file as the process has it. */
  function SaveStep(p: Process, d: Disk, c: Choice, next: Pc, failed: Pc): (Process, Disk) {
    if c.ok then Goto(p, next, d.(states := d.states[p.run := p.snapshot]))
    else if failed == Ended then End(p, d) else Goto(p, failed, d)
  }

  function ArmStep(p: Process, d: Disk, c: Choice): (Process, Disk) {
    if !c.ok then Goto(p, Abandon, d) else Goto(p, See, d.(timers := d.timers + {p.run}))
  }

  /** Looks whether the timer is active. */
  function SeeStep(p: Process, d: Disk, c: Choice): (Process, Disk) {
    Goto(p, if c.seen then Apply else Abandon, d)
  }

  function AbandonStep(p: Process, d: Disk, c: Choice): (Process, Disk) {
    Goto(p, GiveUp, if c.ok then d.(timers := d.timers - {p.run}) else d)
  }

  function GiveUpStep(p: Process, d: Disk, c: Choice): (Process, Disk) {
    End(p, if c.ok then d.(states := d.states[p.run := p.snapshot.(completed := true)]) else d)
  }

  function ApplyStep(p: Process, d: Disk, c: Choice): (Process, Disk) {
    match p.snapshot.kind
    case Keys =>
      if !c.ok then Goto(p, OnFailure(p), d)
      else End(p, d.(targets := d.targets[p.snapshot.path := AppliedFile(p.snapshot)]))
    case Rules =>
      Goto(p, if c.ok then ReadBack else OnFailure(p), d.(targets := d.targets[p.snapshot.path := Listing(c.listed)]))
  }

  /** Reads what rules are listed now into the snapshot. */
  function ListStep(p: Process, d: Disk, c: Choice, next: Pc, failed: Pc): (Process, Disk) {
    var current := Look(d.targets, p.snapshot.path);
    if !c.ok then Goto(p, failed, d)
    else Goto(p.(snapshot := p.snapshot.(appliedState := if current.Present? then current.data else "")), next, d)
  }

  function SaveAppliedStep(p: Process, d: Disk, c: Choice): (Process, Disk) {
    if c.ok then End(p, d.(states := d.states[p.run := p.snapshot])) else Goto(p, OnFailure(p), d)
  }

  // The steps of confirm and rollback.

  function LoadStep(p: Process, d: Disk, c: Choice): (Process, Disk) {
    if !c.ok || !Pending(d.states, p.run) then End(p, d)
    else Goto(p.(snapshot := d.states[p.run]), if p.role == Confirming then Disarm else RbRead, d)
  }

  function RbReadStep(p: Process, d: Disk, c: Choice): (Process, Disk) {
    if !c.ok then End(p, d)
    else match Judge(p.snapshot, Look(d.targets, p.snapshot.path))
      case Nothing => Goto(p, Disarm, d)
      case Refuse => End(p, d)
      case Restore => Goto(p, RbWrite, d)
  }

  function RbWriteStep(p: Process, d: Disk, c: Choice): (Process, Disk) {
    var sn := p.snapshot;
    match sn.kind
    case Keys =>
      if !c.ok then End(p, d)
      else if sn.before.Absent? then Goto(p, Disarm, d.(targets := d.targets[sn.path := Absent]))
      else Goto(p, RbVerify, d.(targets := d.targets[sn.path := Written(sn.before.data, sn.before.mode, sn.owner)]))
    case Rules =>
      var left := d.(targets := d.targets[sn.path := Listing(c.listed)]);
      if c.ok then Goto(p, RbVerify, left) else End(p, left)
  }

  function RbVerifyStep(p: Process, d: Disk, c: Choice): (Process, Disk) {
    if c.ok && Look(d.targets, p.snapshot.path) == p.snapshot.before then Goto(p, Disarm, d) else End(p, d)
  }

  /** Stops the timer. A confirm goes on without that only when the timer is not seen to be active. */
  function DisarmStep(p: Process, d: Disk, c: Choice): (Process, Disk) {
    if c.ok then Goto(p, Complete, d.(timers := d.timers - {p.run}))
    else if p.role == Confirming && c.seen then End(p, d)
    else Goto(p, Complete, d)
  }

  function CompleteStep(p: Process, d: Disk, c: Choice): (Process, Disk) {
    if !c.ok then End(p, d)
    else
      var done := d.(states := d.states[p.run := p.snapshot.(completed := true)]);
      End(p, if p.role == Confirming then done.(confirmed := d.confirmed + {p.run})
        else done.(undone := d.undone + {p.run}))
  }

  function Act(p: Process, d: Disk, c: Choice): (Process, Disk) {
    match p.pc
    case Lock => LockStep(p, d, c)
    case Check => CheckStep(p, d, c)
    case Prepare => PrepareStep(p, d, c)
    case WriteState => SaveStep(p, d, c, Arm, Ended)
    case Arm => ArmStep(p, d, c)
    case See => SeeStep(p, d, c)
    case Abandon => AbandonStep(p, d, c)
    case GiveUp => GiveUpStep(p, d, c)
    case Apply => ApplyStep(p, d, c)
    case ReadBack => ListStep(p, d, c, SaveApplied, OnFailure(p))
    case SaveApplied => SaveAppliedStep(p, d, c)
    case Note => ListStep(p, d, c, SaveNote, RbRead)
    case SaveNote => SaveStep(p, d, c, RbRead, RbRead)
    case Load => LoadStep(p, d, c)
    case RbRead => RbReadStep(p, d, c)
    case RbWrite => RbWriteStep(p, d, c)
    case RbVerify => RbVerifyStep(p, d, c)
    case Disarm => DisarmStep(p, d, c)
    case Complete => CompleteStep(p, d, c)
    case _ => (p, d)
  }

  // Interleavings.

  datatype Step =
    | StartApply(run: Run, kind: Kind, path: string, content: string)
    | StartCommand(id: nat, role: Role, run: Run)
    | Fire(id: nat, run: Run)
    | Does(who: Who, choice: Choice)
    | Crashes(who: Who)
    | Edit(path: string, file: File)

  const NO_SNAPSHOT: Snapshot := Snapshot(Keys, "", Absent, 0, "", "", false)

  predicate Live(s: State, who: Who) {
    who in s.procs && s.procs[who].pc !in {Ended, Crashed}
  }

  predicate Enabled(s: State, step: Step) {
    match step
    case StartApply(run, _, _, _) => Applier(run) !in s.procs
    case StartCommand(id, role, _) => Command(id) !in s.procs && role != Applying
    case Fire(id, run) => Command(id) !in s.procs && run in s.disk.timers
    case Does(who, _) => Live(s, who)
    case Crashes(who) => Live(s, who)
    case Edit(_, _) => true
  }

  /** One step of anybody; a step that cannot be taken changes nothing. A crash leaves the locks as they are. */
  function Next(s: State, step: Step): State {
    if !Enabled(s, step) then s else
    match step
    case StartApply(run, kind, path, content) =>
      s.(procs := s.procs[Applier(run) := Process(Applying, run, Lock,
        Snapshot(kind, path, Absent, 0, content, "", false))])
    case StartCommand(id, role, run) => s.(procs := s.procs[Command(id) := Process(role, run, Lock, NO_SNAPSHOT)])
    case Fire(id, run) =>
      State(s.disk.(timers := s.disk.timers - {run}),
        s.procs[Command(id) := Process(RollingBack, run, Lock, NO_SNAPSHOT)])
    case Does(who, choice) =>
      var (p, d) := Act(s.procs[who], s.disk, choice);
      State(d, s.procs[who := p])
    case Crashes(who) => s.(procs := s.procs[who := s.procs[who].(pc := Crashed)])
    case Edit(path, file) => s.(disk := s.disk.(targets := s.disk.targets[path := file]))
  }

  function Start(targets: map<string, File>): State {
    State(Disk(map[], targets, None, {}, {}, {}, {}), map[])
  }

  function RunOf(targets: map<string, File>, steps: seq<Step>): State {
    if steps == [] then Start(targets) else Next(RunOf(targets, steps[..|steps| - 1]), steps[|steps| - 1])
  }

  lemma RunSnoc(targets: map<string, File>, steps: seq<Step>, step: Step)
    ensures RunOf(targets, steps + [step]) == Next(RunOf(targets, steps), step)
  {
    assert (steps + [step])[..|steps|] == steps;
  }

  // At most one pending change, in every interleaving.

  ghost predicate OnlyPending(states: map<Run, Snapshot>, run: Run) {
    forall r: Run :: Pending(states, r) ==> r == run
  }

  /** Apply holds its lock, and once it has looked no change but its own can be pending. */
  ghost predicate Holds(p: Process, run: Run, d: Disk) {
    && p.role == Applying && p.run == run && p.pc != Load
    && (p.pc !in {Lock, Ended, Crashed} ==> d.applyLock == Some(run))
    && (p.pc !in {Lock, Check, Ended, Crashed} ==> OnlyPending(d.states, run))
  }

  ghost predicate AtMostOne(states: map<Run, Snapshot>) {
    forall r1: Run, r2: Run :: Pending(states, r1) && Pending(states, r2) ==> r1 == r2
  }

  predicate Commanding(p: Process) {
    p.role != Applying && p.pc in {Lock, Load, RbRead, RbWrite, RbVerify, Disarm, Complete, Ended, Crashed}
  }

  ghost predicate Formed(who: Who, p: Process, d: Disk) {
    match who
    case Applier(run) => Holds(p, run, d)
    case Command(_) => Commanding(p)
  }

  ghost predicate OneAtATime(s: State) {
    AtMostOne(s.disk.states) && forall w :: w in s.procs ==> Formed(w, s.procs[w], s.disk)
  }

  /** The pending changes after are among those before. */
  ghost predicate NoMorePending(before: map<Run, Snapshot>, after: map<Run, Snapshot>) {
    forall r: Run :: Pending(after, r) ==> Pending(before, r)
  }

  lemma CommandActs(p: Process, d: Disk, c: Choice)
    requires Commanding(p)
    ensures var (q, e) := Act(p, d, c);
            Commanding(q) && q.run == p.run && q.role == p.role && NoMorePending(d.states, e.states)
              && e.applyLock == d.applyLock
  {
    hide Judge, AppliedFile, Written;
  }

  lemma ApplyActs(p: Process, run: Run, d: Disk, c: Choice)
    requires Holds(p, run, d) && AtMostOne(d.states) && p.pc !in {Ended, Crashed}
    ensures var (q, e) := Act(p, d, c);
            && Holds(q, run, e) && AtMostOne(e.states)
            && (e.applyLock == d.applyLock || p.pc != Lock || (d.applyLock == None && e.applyLock == Some(run)))
            && (p.pc == Lock ==> e.states == d.states)
            && (p.pc != Lock ==> d.applyLock == Some(run))
  {
    hide Judge, AppliedFile, Written;
    if p.pc != Lock && p.pc != Check {
      OnlyAfterWrite(d.states, run, p.snapshot);
      OnlyAfterWrite(d.states, run, p.snapshot.(completed := true));
    }
  }

  lemma OnlyAfterWrite(states: map<Run, Snapshot>, run: Run, sn: Snapshot)
    requires OnlyPending(states, run)
    ensures OnlyPending(states[run := sn], run) && AtMostOne(states[run := sn])
  {
    var after := states[run := sn];
    assert forall r: Run :: Pending(after, r) && r != run ==> Pending(states, r);
  }

  lemma ApplyTurn(s: State, run: Run, c: Choice)
    requires OneAtATime(s) && Live(s, Applier(run))
    ensures OneAtATime(Next(s, Does(Applier(run), c)))
  {
    hide Act;
    var p := s.procs[Applier(run)];
    assert Formed(Applier(run), p, s.disk);
    var (q, e) := Act(p, s.disk, c);
    ApplyActs(p, run, s.disk, c);
    forall w | w in s.procs && w != Applier(run)
      ensures Formed(w, s.procs[w], e)
    {
      assert Formed(w, s.procs[w], s.disk);
    }
  }

  lemma CommandTurn(s: State, id: nat, c: Choice)
    requires OneAtATime(s) && Live(s, Command(id))
    ensures OneAtATime(Next(s, Does(Command(id), c)))
  {
    hide Act;
    var p := s.procs[Command(id)];
    assert Formed(Command(id), p, s.disk);
    var (q, e) := Act(p, s.disk, c);
    CommandActs(p, s.disk, c);
    forall w | w in s.procs && w != Command(id)
      ensures Formed(w, s.procs[w], e)
    {
      assert Formed(w, s.procs[w], s.disk);
    }
  }

  lemma OneAtATimeKept(s: State, step: Step)
    requires OneAtATime(s)
    ensures OneAtATime(Next(s, step))
  {
    hide Act;
    if Enabled(s, step) {
      match step {
        case Does(who, c) =>
          match who {
            case Applier(run) => ApplyTurn(s, run, c);
            case Command(id) => CommandTurn(s, id, c);
          }
        case _ =>
          assert forall w :: w in s.procs ==> Formed(w, s.procs[w], s.disk);
      }
    }
  }

  /** Whatever the processes do, and whenever commands come, at most one change is pending. */
  lemma {:induction false} OnePending(targets: map<string, File>, steps: seq<Step>)
    ensures OneAtATime(RunOf(targets, steps))
    ensures AtMostOne(RunOf(targets, steps).disk.states)
  {
    if steps != [] {
      OnePending(targets, steps[..|steps| - 1]);
      OneAtATimeKept(RunOf(targets, steps[..|steps| - 1]), steps[|steps| - 1]);
    }
  }

  /** A process changes a target in two steps only, when it applies the change and when it takes it back, and only its
      own target. */
  lemma WhereTargetsChange(p: Process, d: Disk, c: Choice)
    ensures Act(p, d, c).1.targets != d.targets ==> p.pc in {Apply, RbWrite}
    ensures forall path :: path != p.snapshot.path ==> Look(Act(p, d, c).1.targets, path) == Look(d.targets, path)
  {
    hide Judge, AppliedFile, Written;
  }

  // A process changes nothing of another run.

  ghost predicate Elsewhere(d: Disk, e: Disk, run: Run) {
    forall x: Run :: x != run ==> SameFor(d, e, x)
  }

  ghost predicate SameFor(d: Disk, e: Disk, x: Run) {
    && (x in d.states <==> x in e.states) && (x in d.states ==> d.states[x] == e.states[x])
    && (x in d.locks <==> x in e.locks) && (x in d.timers <==> x in e.timers)
    && (x in d.confirmed <==> x in e.confirmed) && (x in d.undone <==> x in e.undone)
  }

  ghost predicate OnlyOwn(d: Disk, e: Disk, run: Run, sn: Snapshot) {
    && (e.states == d.states || e.states == d.states[run := sn] || e.states == d.states[run := sn.(completed := true)])
    && (e.locks == d.locks || e.locks == d.locks + {run} || e.locks == d.locks - {run})
    && (e.timers == d.timers || e.timers == d.timers + {run} || e.timers == d.timers - {run})
    && (e.confirmed == d.confirmed || e.confirmed == d.confirmed + {run})
    && (e.undone == d.undone || e.undone == d.undone + {run})
  }

  lemma ActOnlyOwn(p: Process, d: Disk, c: Choice)
    ensures OnlyOwn(d, Act(p, d, c).1, p.run, p.snapshot)
    ensures Act(p, d, c).0.run == p.run && Act(p, d, c).0.role == p.role
  {
    hide Act, OnlyOwn;
    if p.pc in {RbRead, RbWrite, RbVerify, Disarm, Complete} {
      RollbackOnlyOwn(p, d, c);
    } else {
      OtherwiseOnlyOwn(p, d, c);
    }
  }

  lemma OtherwiseOnlyOwn(p: Process, d: Disk, c: Choice)
    requires p.pc !in {RbRead, RbWrite, RbVerify, Disarm, Complete}
    ensures OnlyOwn(d, Act(p, d, c).1, p.run, p.snapshot)
    ensures Act(p, d, c).0.run == p.run && Act(p, d, c).0.role == p.role
  {
    hide AppliedFile, Act, OnlyOwn;
    if p.pc in {Lock, Check, Prepare, Load} {
      LookingOnlyOwn(p, d, c);
    } else if p.pc in {WriteState, SaveApplied, SaveNote, Arm, See, Abandon, GiveUp} {
      SavingOnlyOwn(p, d, c);
    } else {
      ChangingOnlyOwn(p, d, c);
    }
  }

  lemma SavingOnlyOwn(p: Process, d: Disk, c: Choice)
    requires p.pc in {WriteState, SaveApplied, SaveNote, Arm, See, Abandon, GiveUp}
    ensures OnlyOwn(d, Act(p, d, c).1, p.run, p.snapshot)
    ensures Act(p, d, c).0.run == p.run && Act(p, d, c).0.role == p.role
  {
  }

  lemma LookingOnlyOwn(p: Process, d: Disk, c: Choice)
    requires p.pc in {Lock, Check, Prepare, Load}
    ensures OnlyOwn(d, Act(p, d, c).1, p.run, p.snapshot)
    ensures Act(p, d, c).0.run == p.run && Act(p, d, c).0.role == p.role
  {
  }

  lemma ChangingOnlyOwn(p: Process, d: Disk, c: Choice)
    requires p.pc !in {RbRead, RbWrite, RbVerify, Disarm, Complete, Lock, Check, Prepare, Load}
    requires p.pc !in {WriteState, SaveApplied, SaveNote, Arm, See, Abandon, GiveUp}
    ensures OnlyOwn(d, Act(p, d, c).1, p.run, p.snapshot)
    ensures Act(p, d, c).0.run == p.run && Act(p, d, c).0.role == p.role
  {
    hide AppliedFile;
  }

  lemma RollbackOnlyOwn(p: Process, d: Disk, c: Choice)
    requires p.pc in {RbRead, RbWrite, RbVerify, Disarm, Complete}
    ensures OnlyOwn(d, Act(p, d, c).1, p.run, p.snapshot)
    ensures Act(p, d, c).0.run == p.run && Act(p, d, c).0.role == p.role
  {
    hide Judge, AppliedFile, Written;
  }

  lemma ActElsewhere(p: Process, d: Disk, c: Choice)
    ensures Elsewhere(d, Act(p, d, c).1, p.run)
    ensures Act(p, d, c).0.run == p.run && Act(p, d, c).0.role == p.role
  {
    hide Act;
    ActOnlyOwn(p, d, c);
  }
}
