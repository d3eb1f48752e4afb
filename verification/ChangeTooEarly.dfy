// Commands that come while apply is at work: for each step of apply but the last ones there is a run in which a command
// that begins there leaves the target changed without a guard, or the change both confirmed and rolled back.
module ChangeTooEarly {
  import opened Folds
  import opened ChangeTarget
  import opened ChangeProtocol
  import opened ChangeGuard

  const YES: Choice := Choice(true, true, "", 0)
  const NO: Choice := Choice(false, false, "", 0)

  /** These steps lead to s, commands on the run waited, and there were none on other runs. */
  ghost predicate Reaches(targets: map<string, File>, steps: seq<Step>, run: Run, pcs: set<Pc>, s: State) {
    && RunOf(targets, steps) == s && Waits(targets, steps, run, pcs)
    && forall r: Run :: r != run ==> Waits(targets, steps, r, {})
  }

  lemma OneMove(targets: map<string, File>, steps: seq<Step>, run: Run, pcs: set<Pc>, s: State, step: Step)
      returns (more: seq<Step>)
    requires Reaches(targets, steps, run, pcs, s) && (Begins(s, step, run) ==> ApplyAt(s, run, pcs))
    requires step.Does? || step.Edit? || step.StartApply? || (step.StartCommand? && step.run == run)
    ensures more == steps + [step] && Reaches(targets, more, run, pcs, Next(s, step))
  {
    hide Next, ApplyAt, RunOf, Waits, Enabled;
    more := steps + [step];
    RunSnoc(targets, steps, step);
    WaitsSnoc(targets, steps, step, run, pcs);
    forall r: Run | r != run
      ensures Waits(targets, more, r, {})
    {
      WaitsSnoc(targets, steps, step, r, {});
    }
  }

  // Up to where apply changes its target.

  function PathOf(kind: Kind): string {
    if kind == Keys then "keys" else "rules"
  }

  function BeforeOf(kind: Kind): File {
    if kind == Keys then Present("o", 0x1A4, 0) else Listing("b")
  }

  function TargetsOf(kind: Kind): map<string, File> {
    map[PathOf(kind) := BeforeOf(kind)]
  }

  /** The snapshot as apply has it at a step: the target before is known once it has been read. */
  function Taking(kind: Kind, pc: Pc): Snapshot {
    Snapshot(kind, PathOf(kind), if pc in {Lock, Check, Prepare} then Absent else BeforeOf(kind), 0, "n", "", false)
  }

  function Going(run: Run, kind: Kind, pc: Pc): Process {
    Process(Applying, run, pc, Taking(kind, pc))
  }

  const IDLE: Run -> Process := (run: Run) => Process(RollingBack, run, Lock, NO_SNAPSHOT)

  /** Everything while apply goes on alone, perhaps beside a rollback that has begun and not moved. */
  function StateAt(run: Run, kind: Kind, pc: Pc, idle: bool): State {
    State(DiskAt(run, kind, pc),
          if idle then map[Applier(run) := Going(run, kind, pc), Command(0) := IDLE(run)]
          else map[Applier(run) := Going(run, kind, pc)])
  }

  function After(pc: Pc): Pc {
    match pc
    case Lock => Check
    case Check => Prepare
    case Prepare => WriteState
    case WriteState => Arm
    case Arm => See
    case _ => Apply
  }

  function ToApply(pc: Pc): nat {
    match pc
    case Lock => 6
    case Check => 5
    case Prepare => 4
    case WriteState => 3
    case Arm => 2
    case See => 1
    case _ => 0
  }

  lemma GoesOn(run: Run, kind: Kind, pc: Pc, idle: bool)
    requires pc in {Lock, Check, Prepare, WriteState, Arm, See}
    ensures Next(StateAt(run, kind, pc, idle), Does(Applier(run), YES)) == StateAt(run, kind, After(pc), idle)
  {
    hide Act, TargetsOf, Taking;
    var s := StateAt(run, kind, pc, idle);
    if pc in {Lock, Check, Prepare} {
      LooksOn(run, kind, pc, s.disk);
    } else {
      SavesOn(run, kind, pc, s.disk);
    }
    ProcsOn(run, kind, pc, idle);
  }

  function DiskAt(run: Run, kind: Kind, pc: Pc): Disk {
    Disk(if pc in {Arm, See, Apply} then map[run := Taking(kind, Apply)] else map[], TargetsOf(kind),
         if pc == Lock then None else Some(run), {}, if pc in {See, Apply} then {run} else {}, {}, {})
  }

  lemma LooksOn(run: Run, kind: Kind, pc: Pc, d: Disk)
    requires pc in {Lock, Check, Prepare} && d == DiskAt(run, kind, pc)
    ensures Act(Going(run, kind, pc), d, YES) == (Going(run, kind, After(pc)), DiskAt(run, kind, After(pc)))
  {
  }

  lemma SavesOn(run: Run, kind: Kind, pc: Pc, d: Disk)
    requires pc in {WriteState, Arm, See} && d == DiskAt(run, kind, pc)
    ensures Act(Going(run, kind, pc), d, YES) == (Going(run, kind, After(pc)), DiskAt(run, kind, After(pc)))
  {
    assert Act(Going(run, kind, pc), d, YES).1.states == DiskAt(run, kind, After(pc)).states;
    assert Act(Going(run, kind, pc), d, YES).1.timers == DiskAt(run, kind, After(pc)).timers;
  }

  lemma ProcsOn(run: Run, kind: Kind, pc: Pc, idle: bool)
    ensures StateAt(run, kind, pc, idle).procs[Applier(run) := Going(run, kind, After(pc))]
              == StateAt(run, kind, After(pc), idle).procs
  {
    hide Going, After;
  }

  lemma {:induction false} Drives(targets: map<string, File>, steps: seq<Step>, run: Run, pcs: set<Pc>, kind: Kind,
                                  from: Pc, to: Pc, idle: bool) returns (more: seq<Step>)
    requires Reaches(targets, steps, run, pcs, StateAt(run, kind, from, idle))
    requires from in {Lock, Check, Prepare, WriteState, Arm, See, Apply}
    requires to in {Lock, Check, Prepare, WriteState, Arm, See, Apply}
    requires ToApply(from) >= ToApply(to)
    ensures Reaches(targets, more, run, pcs, StateAt(run, kind, to, idle))
    decreases ToApply(from)
  {
    hide Reaches, StateAt;
    if from == to {
      return steps;
    }
    GoesOn(run, kind, from, idle);
    NoBegin(StateAt(run, kind, from, idle), Applier(run), YES, run);
    more := OneMove(targets, steps, run, pcs, StateAt(run, kind, from, idle), Does(Applier(run), YES));
    more := Drives(targets, more, run, pcs, kind, After(from), to, idle);
  }

  lemma NoBegin(s: State, who: Who, c: Choice, run: Run)
    ensures !Begins(s, Does(who, c), run)
  {
  }

  lemma Begun(run: Run, pcs: set<Pc>, kind: Kind) returns (steps: seq<Step>)
    ensures Reaches(TargetsOf(kind), steps, run, pcs, StateAt(run, kind, Lock, false))
  {
    hide TargetsOf, Next, StateAt, Begins;
    var targets := TargetsOf(kind);
    assert Reaches(targets, [], run, pcs, Start(targets));
    var step := StartApply(run, kind, PathOf(kind), "n");
    StartIsNoBegin(Start(targets), run, kind);
    steps := OneMove(targets, [], run, pcs, Start(targets), step);
    StartsAt(run, kind);
  }

  lemma StartIsNoBegin(s: State, run: Run, kind: Kind)
    ensures !Begins(s, StartApply(run, kind, PathOf(kind), "n"), run)
  {
  }

  lemma StartsAt(run: Run, kind: Kind)
    ensures Next(Start(TargetsOf(kind)), StartApply(run, kind, PathOf(kind), "n")) == StateAt(run, kind, Lock, false)
  {
    hide TargetsOf;
    assert Next(Start(TargetsOf(kind)), StartApply(run, kind, PathOf(kind), "n")).procs
      == StateAt(run, kind, Lock, false).procs;
  }

  // A rollback that begins before the change, and acts just before it.

  lemma EarlyBreaks(run: Run, pc: Pc) returns (targets: map<string, File>, steps: seq<Step>)
    requires pc in {Lock, Check, Prepare, WriteState, Arm, See, Apply}
    ensures Waits(targets, steps, run, {pc}) && !Protected(RunOf(targets, steps), run)
    ensures run in RunOf(targets, steps).disk.undone
  {
    hide Reaches, Protected, Waits;
    targets := TargetsOf(Keys);
    steps := Begun(run, {pc}, Keys);
    steps := Drives(targets, steps, run, {pc}, Keys, Lock, pc, false);
    RollbackBegins(run, pc);
    steps := OneMove(targets, steps, run, {pc}, StateAt(run, Keys, pc, false), StartCommand(0, RollingBack, run));
    steps := Drives(targets, steps, run, {pc}, Keys, pc, Apply, true);
    var s;
    steps, s := FiveMoves(targets, steps, run, {pc});
    UndoneIsUnprotected(s, run);
    ReachesIs(targets, steps, run, {pc}, s);
  }

  lemma ReachesIs(targets: map<string, File>, steps: seq<Step>, run: Run, pcs: set<Pc>, s: State)
    requires Reaches(targets, steps, run, pcs, s)
    ensures RunOf(targets, steps) == s && Waits(targets, steps, run, pcs)
  {
  }

  lemma RollbackBegins(run: Run, pc: Pc)
    requires pc in {Lock, Check, Prepare, WriteState, Arm, See, Apply}
    ensures ApplyAt(StateAt(run, Keys, pc, false), run, {pc})
    ensures Next(StateAt(run, Keys, pc, false), StartCommand(0, RollingBack, run)) == StateAt(run, Keys, pc, true)
  {
    assert Next(StateAt(run, Keys, pc, false), StartCommand(0, RollingBack, run)).procs
      == StateAt(run, Keys, pc, true).procs;
  }

  /** The rollback beside an apply that is about to change a file. */
  function Beside(run: Run, p: Process, locked: bool, armed: bool, done: bool): State {
    var sn := Taking(Keys, Apply);
    State(Disk(map[run := sn.(completed := done)], TargetsOf(Keys), Some(run), if locked then {run} else {},
               if armed then {run} else {}, {}, if done then {run} else {}),
          map[Applier(run) := Going(run, Keys, Apply), Command(0) := p])
  }

  function Rolling(run: Run, pc: Pc): Process {
    Process(RollingBack, run, pc, Taking(Keys, Apply))
  }

  lemma FiveMoves(targets: map<string, File>, steps: seq<Step>, run: Run, pcs: set<Pc>)
      returns (more: seq<Step>, s: State)
    requires Reaches(targets, steps, run, pcs, StateAt(run, Keys, Apply, true))
    ensures s == Beside(run, Rolling(run, Ended), false, false, true) && Reaches(targets, more, run, pcs, s)
  {
    hide Reaches, Next, Beside, StateAt, Begins;
    s := StateAt(run, Keys, Apply, true);
    RollbackLoads(run);
    forall t: State ensures !Begins(t, Does(Command(0), YES), run) {
      NoBegin(t, Command(0), YES, run);
    }
    more := OneMove(targets, steps, run, pcs, s, Does(Command(0), YES));
    s := Next(s, Does(Command(0), YES));
    more := OneMove(targets, more, run, pcs, s, Does(Command(0), YES));
    RollbackLooks(run);
    RollbackDisarms(run);
    RollbackCompletes(run);
    more := OneMove(targets, more, run, pcs, Beside(run, Rolling(run, RbRead), true, true, false),
      Does(Command(0), YES));
    more := OneMove(targets, more, run, pcs, Beside(run, Rolling(run, Disarm), true, true, false),
      Does(Command(0), YES));
    more := OneMove(targets, more, run, pcs, Beside(run, Rolling(run, Complete), true, false, false),
      Does(Command(0), YES));
    s := Beside(run, Rolling(run, Ended), false, false, true);
  }

  lemma RollbackLoads(run: Run)
    ensures Next(Next(StateAt(run, Keys, Apply, true), Does(Command(0), YES)), Does(Command(0), YES))
            == Beside(run, Rolling(run, RbRead), true, true, false)
  {
    var s := StateAt(run, Keys, Apply, true);
    var t := Next(s, Does(Command(0), YES));
    assert t.procs == map[Applier(run) := Going(run, Keys, Apply),
      Command(0) := Process(RollingBack, run, Load, NO_SNAPSHOT)];
    assert t.disk.locks == {run};
    var u := Next(t, Does(Command(0), YES));
    assert u.procs == map[Applier(run) := Going(run, Keys, Apply), Command(0) := Rolling(run, RbRead)];
  }

  lemma BesideMoves(run: Run, p: Process, q: Process, locked: bool, armed: bool, done: bool)
    ensures Beside(run, p, locked, armed, done).procs[Command(0) := q] == Beside(run, q, locked, armed, done).procs
  {
    hide Going;
  }

  lemma RollbackLooks(run: Run)
    ensures Next(Beside(run, Rolling(run, RbRead), true, true, false), Does(Command(0), YES))
            == Beside(run, Rolling(run, Disarm), true, true, false)
  {
    assert Judge(Taking(Keys, Apply), BeforeOf(Keys)) == Nothing;
    BesideMoves(run, Rolling(run, RbRead), Rolling(run, Disarm), true, true, false);
    hide Going, Judge;
  }

  lemma RollbackDisarms(run: Run)
    ensures Next(Beside(run, Rolling(run, Disarm), true, true, false), Does(Command(0), YES))
            == Beside(run, Rolling(run, Complete), true, false, false)
  {
    hide Going, Judge, Taking, TargetsOf;
    assert {run} - {run} == {};
    BesideMoves(run, Rolling(run, Disarm), Rolling(run, Complete), true, true, false);
  }

  lemma RollbackCompletes(run: Run)
    ensures Next(Beside(run, Rolling(run, Complete), true, false, false), Does(Command(0), YES))
            == Beside(run, Rolling(run, Ended), false, false, true)
  {
    hide Going, Judge, TargetsOf;
    assert {run} - {run} == {} && {} + {run} == {run};
    BesideMoves(run, Rolling(run, Complete), Rolling(run, Ended), true, false, false);
    var sn := Taking(Keys, Apply);
    assert map[run := sn][run := sn.(completed := true)] == map[run := sn.(completed := true)];
  }

  lemma UndoneIsUnprotected(s: State, run: Run)
    requires s == Beside(run, Rolling(run, Ended), false, false, true)
    ensures !Protected(s, run) && run in s.disk.undone
  {
    var e := Act(s.procs[Applier(run)], s.disk, YES).1;
    assert e.targets["keys"].data != s.disk.targets["keys"].data;
    assert !Under(s, run);
  }

  // A confirm while apply of rules fails and takes the change back.

  const PUT_BACK: Choice := Choice(true, true, "b", 0)
  const LISTED: Choice := Choice(true, true, "l", 0)

  /** The snapshot as apply has it, once the rules are listed otherwise than before. */
  function Failing(pc: Pc): Snapshot {
    Snapshot(Rules, "rules", Listing("b"), 0, "n", if pc in {ReadBack, Note} then "" else "l", false)
  }

  /** Apply of rules on its way back from a failure, before or after a confirm. */
  ghost predicate Fails(s: State, run: Run, pc: Pc, confirmed: bool) {
    && Applier(run) in s.procs && s.procs[Applier(run)] == Process(Applying, run, pc, Failing(pc))
    && Look(s.disk.targets, "rules") == Listing(if pc in {RbVerify, Disarm, Complete} then "b" else "l")
    && (if confirmed then run in s.disk.confirmed
        else Pending(s.disk.states, run) && run !in s.disk.locks && Command(0) !in s.procs)
  }

  /** How the surroundings answer: the rules cannot be listed, or, with saving, the listing cannot be saved. */
  function Answer(pc: Pc, saving: bool): Choice {
    match pc
    case ReadBack => if saving then YES else NO
    case SaveApplied => NO
    case RbWrite => PUT_BACK
    case _ => YES
  }

  function Then(pc: Pc, saving: bool): Pc {
    match pc
    case ReadBack => if saving then SaveApplied else Note
    case SaveApplied => RbRead
    case Note => SaveNote
    case SaveNote => RbRead
    case RbRead => RbWrite
    case RbWrite => RbVerify
    case RbVerify => Disarm
    case _ => Complete
  }

  function ToComplete(pc: Pc): nat {
    match pc
    case ReadBack => 8
    case SaveApplied => 7
    case Note => 7
    case SaveNote => 6
    case RbRead => 5
    case RbWrite => 4
    case RbVerify => 3
    case Disarm => 2
    case _ => 1
  }

  predicate OnTheWay(pc: Pc, saving: bool) {
    pc in {ReadBack, RbRead, RbWrite, RbVerify, Disarm, Complete}
      || (if saving then pc == SaveApplied else pc in {Note, SaveNote})
  }

  lemma FailsOn(s: State, run: Run, pc: Pc, saving: bool, confirmed: bool)
    requires Fails(s, run, pc, confirmed) && OnTheWay(pc, saving) && pc != Complete
    ensures Fails(Next(s, Does(Applier(run), Answer(pc, saving))), run, Then(pc, saving), confirmed)
  {
    hide Act;
    FailingActs(run, pc, saving, s.disk);
  }

  /** Nothing changes but the targets, and the state file, which goes on being pending, and the timer. */
  ghost predicate SameBut(d: Disk, e: Disk, run: Run) {
    && e.locks == d.locks && e.confirmed == d.confirmed && e.undone == d.undone && e.applyLock == d.applyLock
    && (e.states == d.states || e.states == d.states[run := Failing(SaveNote)])
  }

  lemma FailingActs(run: Run, pc: Pc, saving: bool, d: Disk)
    requires OnTheWay(pc, saving) && pc != Complete
    requires Look(d.targets, "rules") == Listing(if pc in {RbVerify, Disarm} then "b" else "l")
    ensures var (q, e) := Act(Process(Applying, run, pc, Failing(pc)), d, Answer(pc, saving));
            && q == Process(Applying, run, Then(pc, saving), Failing(Then(pc, saving)))
            && Look(e.targets, "rules")
               == Listing(if Then(pc, saving) in {RbVerify, Disarm, Complete} then "b" else "l")
            && SameBut(d, e, run)
  {
    hide Act, Failing, Answer;
    if pc in {ReadBack, SaveApplied, Note, SaveNote} {
      NotingActs(run, pc, saving, d);
    } else {
      ReturningActs(run, pc, saving, d);
    }
  }

  lemma ReturningActs(run: Run, pc: Pc, saving: bool, d: Disk)
    requires pc in {RbRead, RbWrite, RbVerify, Disarm}
    requires Look(d.targets, "rules") == Listing(if pc in {RbVerify, Disarm} then "b" else "l")
    ensures var (q, e) := Act(Process(Applying, run, pc, Failing(pc)), d, Answer(pc, saving));
            && q == Process(Applying, run, Then(pc, saving), Failing(Then(pc, saving)))
            && Look(e.targets, "rules") == Listing(if pc == RbRead then "l" else "b")
            && SameBut(d, e, run)
  {
    assert Listing("b") != Listing("l") && Listing("b").data == "b";
    assert Judge(Failing(RbRead), Listing("l")) == Restore;
  }

  lemma NotingActs(run: Run, pc: Pc, saving: bool, d: Disk)
    requires OnTheWay(pc, saving) && pc in {ReadBack, SaveApplied, Note, SaveNote}
    requires Look(d.targets, "rules") == Listing("l")
    ensures var (q, e) := Act(Process(Applying, run, pc, Failing(pc)), d, Answer(pc, saving));
            && q == Process(Applying, run, Then(pc, saving), Failing(Then(pc, saving)))
            && e.targets == d.targets && SameBut(d, e, run)
  {
  }

  lemma ThenCloser(from: Pc, to: Pc, saving: bool)
    requires OnTheWay(from, saving) && OnTheWay(to, saving) && ToComplete(from) >= ToComplete(to) && from != to
    ensures from != Complete && OnTheWay(Then(from, saving), saving)
    ensures ToComplete(from) > ToComplete(Then(from, saving)) >= ToComplete(to)
  {
  }

  lemma {:induction false} DrivesFailing(targets: map<string, File>, steps: seq<Step>, run: Run, pcs: set<Pc>, s: State,
                                         from: Pc, to: Pc, saving: bool, confirmed: bool)
    returns (more: seq<Step>, t: State)
    requires Reaches(targets, steps, run, pcs, s) && Fails(s, run, from, confirmed)
    requires OnTheWay(from, saving) && OnTheWay(to, saving) && ToComplete(from) >= ToComplete(to)
    ensures Reaches(targets, more, run, pcs, t) && Fails(t, run, to, confirmed)
    decreases ToComplete(from)
  {
    hide Reaches, Fails, Next, Begins, Answer, Then, ToComplete, OnTheWay;
    if from == to {
      return steps, s;
    }
    ThenCloser(from, to, saving);
    NoBegin(s, Applier(run), Answer(from, saving), run);
    FailsOn(s, run, from, saving, confirmed);
    more := OneMove(targets, steps, run, pcs, s, Does(Applier(run), Answer(from, saving)));
    var u := Next(s, Does(Applier(run), Answer(from, saving)));
    more, t := DrivesFailing(targets, more, run, pcs, u, Then(from, saving), to, saving, confirmed);
  }

  /** A confirm goes through while apply is on its way back. */
  lemma Confirms(targets: map<string, File>, steps: seq<Step>, run: Run, pcs: set<Pc>, s: State, pc: Pc)
    returns (more: seq<Step>, t: State)
    requires Reaches(targets, steps, run, pcs, s) && Fails(s, run, pc, false) && pc in pcs
    ensures Reaches(targets, more, run, pcs, t) && Fails(t, run, pc, true)
  {
    hide Reaches, Next, Begins, Fails;
    assert ApplyAt(s, run, pcs) by {
      FailsAt(s, run, pc);
    }
    forall u: State ensures !Begins(u, Does(Command(0), YES), run) {
      NoBegin(u, Command(0), YES, run);
    }
    more := OneMove(targets, steps, run, pcs, s, StartCommand(0, Confirming, run));
    t := Next(s, StartCommand(0, Confirming, run));
    ConfirmBegins(s, run, pc);
    more := OneMove(targets, more, run, pcs, t, Does(Command(0), YES));
    t := Next(t, Does(Command(0), YES));
    more := OneMove(targets, more, run, pcs, t, Does(Command(0), YES));
    t := Next(t, Does(Command(0), YES));
    ConfirmEnds(t, run, pc);
    more := OneMove(targets, more, run, pcs, t, Does(Command(0), YES));
    t := Next(t, Does(Command(0), YES));
    more := OneMove(targets, more, run, pcs, t, Does(Command(0), YES));
    t := Next(t, Does(Command(0), YES));
  }

  lemma FailsAt(s: State, run: Run, pc: Pc)
    requires Fails(s, run, pc, false)
    ensures ApplyAt(s, run, {pc})
  {
  }

  /** The confirm has read the state file, and apply goes on as it did. */
  ghost predicate ConfirmLoaded(s: State, run: Run, pc: Pc) {
    && Applier(run) in s.procs && s.procs[Applier(run)] == Process(Applying, run, pc, Failing(pc))
    && Look(s.disk.targets, "rules") == Listing(if pc in {RbVerify, Disarm, Complete} then "b" else "l")
    && Command(0) in s.procs && s.procs[Command(0)].(snapshot := NO_SNAPSHOT)
         == Process(Confirming, run, Disarm, NO_SNAPSHOT)
  }

  lemma ConfirmBegins(s: State, run: Run, pc: Pc)
    requires Fails(s, run, pc, false)
    ensures ConfirmLoaded(Next(Next(Next(s, StartCommand(0, Confirming, run)), Does(Command(0), YES)),
              Does(Command(0), YES)), run, pc)
  {
    var t := Next(s, StartCommand(0, Confirming, run));
    assert t.procs[Command(0)] == Process(Confirming, run, Lock, NO_SNAPSHOT);
    var u := Next(t, Does(Command(0), YES));
    assert u.procs[Command(0)].pc == Load;
  }

  lemma ConfirmEnds(s: State, run: Run, pc: Pc)
    requires ConfirmLoaded(s, run, pc)
    ensures Fails(Next(Next(s, Does(Command(0), YES)), Does(Command(0), YES)), run, pc, true)
  {
    var t := Next(s, Does(Command(0), YES));
    assert t.procs[Command(0)].pc == Complete;
  }

  /** Apply of rules, up to having made the change. */
  lemma RulesApplied(run: Run, pcs: set<Pc>) returns (steps: seq<Step>, s: State)
    ensures Reaches(TargetsOf(Rules), steps, run, pcs, s) && Fails(s, run, ReadBack, false)
  {
    hide Reaches, Begins;
    var targets := TargetsOf(Rules);
    steps := Begun(run, pcs, Rules);
    steps := Drives(targets, steps, run, pcs, Rules, Lock, Apply, false);
    s := StateAt(run, Rules, Apply, false);
    NoBegin(s, Applier(run), LISTED, run);
    steps := OneMove(targets, steps, run, pcs, s, Does(Applier(run), LISTED));
    s := Next(s, Does(Applier(run), LISTED));
  }

  lemma LateBreaks(run: Run, pc: Pc) returns (targets: map<string, File>, steps: seq<Step>)
    requires pc in {ReadBack, SaveApplied, Note, SaveNote, RbRead, RbWrite, RbVerify, Disarm, Complete}
    ensures Waits(targets, steps, run, {pc}) && BothSucceeded(RunOf(targets, steps), run)
  {
    hide Reaches, BothSucceeded, Waits, Fails, Next, Begins;
    var saving := pc == SaveApplied;
    targets := TargetsOf(Rules);
    var s;
    steps, s := RulesApplied(run, {pc});
    steps, s := DrivesFailing(targets, steps, run, {pc}, s, ReadBack, pc, saving, false);
    steps, s := Confirms(targets, steps, run, {pc}, s, pc);
    steps, s := DrivesFailing(targets, steps, run, {pc}, s, pc, Complete, saving, true);
    NoBegin(s, Applier(run), YES, run);
    steps := OneMove(targets, steps, run, {pc}, s, Does(Applier(run), YES));
    CompletesToo(s, run);
    ReachesIs(targets, steps, run, {pc}, Next(s, Does(Applier(run), YES)));
  }

  lemma CompletesToo(s: State, run: Run)
    requires Fails(s, run, Complete, true)
    ensures BothSucceeded(Next(s, Does(Applier(run), YES)), run)
  {
  }

  // Exactly how long commands have to wait.

  /** Apply is never at Load. */
  lemma {:induction false} NeverAtLoad(targets: map<string, File>, steps: seq<Step>, run: Run, pcs: set<Pc>,
                                       others: set<Pc>)
    requires Waits(targets, steps, run, pcs) && pcs <= others + {Load}
    ensures Waits(targets, steps, run, others)
  {
    hide Begins;
    if steps != [] {
      var n := |steps| - 1;
      NeverAtLoad(targets, steps[..n], run, pcs, others);
      OnePending(targets, steps[..n]);
      var s := RunOf(targets, steps[..n]);
      assert Applier(run) in s.procs ==> Formed(Applier(run), s.procs[Applier(run)], s.disk);
    }
  }

  ghost predicate Fine(s: State, run: Run) {
    !BothSucceeded(s, run) && Protected(s, run)
  }

  /** Every run is fine if and only if the commands on it begin only when apply has changed all it will (apply is never
      at Load): whatever other step of apply they may begin at, some run is not. */
  lemma WaitsExactly(run: Run, pcs: set<Pc>)
    ensures (forall targets, steps :: Waits(targets, steps, run, pcs) ==> Fine(RunOf(targets, steps), run))
              <==> pcs <= CALM + {Load}
  {
    hide Waits, Fine, RunOf, BothSucceeded, Protected;
    if pcs <= CALM + {Load} {
      forall targets, steps | Waits(targets, steps, run, pcs)
        ensures Fine(RunOf(targets, steps), run)
      {
        NeverAtLoad(targets, steps, run, pcs, CALM);
        NeverBoth(targets, steps, run);
        ChangedUnderGuard(targets, steps, run);
        FineIs(RunOf(targets, steps), run);
      }
    } else {
      var pc :| pc in pcs && pc !in CALM + {Load};
      var targets, steps := Breaks(run, pc);
      WaitsLonger(targets, steps, run, {pc}, pcs);
    }
  }

  lemma FineIs(s: State, run: Run)
    ensures Fine(s, run) <==> !BothSucceeded(s, run) && Protected(s, run)
  {
  }

  lemma Breaks(run: Run, pc: Pc) returns (targets: map<string, File>, steps: seq<Step>)
    requires pc !in CALM + {Load}
    ensures Waits(targets, steps, run, {pc}) && !Fine(RunOf(targets, steps), run)
  {
    hide Waits, Fine, RunOf, BothSucceeded, Protected;
    if pc in {Lock, Check, Prepare, WriteState, Arm, See, Apply} {
      targets, steps := EarlyBreaks(run, pc);
    } else {
      targets, steps := LateBreaks(run, pc);
    }
    FineIs(RunOf(targets, steps), run);
  }
}
