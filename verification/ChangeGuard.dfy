// When the commands on a change may come: what every run keeps when they wait for apply, and exactly how long they have
// to wait.
module ChangeGuard {
  import opened ChangeTarget
  import opened ChangeProtocol

  /** Apply has changed all it will change: it only gives the change up, or is gone. */
  const CALM: set<Pc> := {Abandon, GiveUp, Ended, Crashed}
  const GONE: set<Pc> := {Ended, Crashed}

  ghost predicate ApplyAt(s: State, run: Run, pcs: set<Pc>) {
    Applier(run) in s.procs && s.procs[Applier(run)].pc in pcs
  }

  /** The step is a command, or the timer, that begins to work on a run. */
  predicate Begins(s: State, step: Step, run: Run) {
    Enabled(s, step) && (step.StartCommand? || step.Fire?) && step.run == run
  }

  /** Commands and the timer begin to work on this run only when its apply is somewhere in these steps. */
  ghost predicate Waits(targets: map<string, File>, steps: seq<Step>, run: Run, pcs: set<Pc>) {
    steps != [] ==>
      var n := |steps| - 1;
      && Waits(targets, steps[..n], run, pcs)
      && (Begins(RunOf(targets, steps[..n]), steps[n], run) ==> ApplyAt(RunOf(targets, steps[..n]), run, pcs))
  }

  lemma WaitsSnoc(targets: map<string, File>, steps: seq<Step>, step: Step, run: Run, pcs: set<Pc>)
    ensures Waits(targets, steps + [step], run, pcs) <==>
              Waits(targets, steps, run, pcs) && (Begins(RunOf(targets, steps), step, run) ==>
                ApplyAt(RunOf(targets, steps), run, pcs))
  {
    assert (steps + [step])[..|steps|] == steps;
  }

  lemma {:induction false} WaitsLonger(targets: map<string, File>, steps: seq<Step>, run: Run, pcs: set<Pc>,
                                       more: set<Pc>)
    requires Waits(targets, steps, run, pcs) && pcs <= more
    ensures Waits(targets, steps, run, more)
  {
    if steps != [] {
      WaitsLonger(targets, steps[..|steps| - 1], run, pcs, more);
    }
  }

  // What every step keeps.

  predicate Early(pc: Pc) {
    pc in {Lock, Check, Prepare, WriteState}
  }

  predicate Guarded(pc: Pc) {
    pc in {See, Apply, ReadBack, SaveApplied, Note, SaveNote, RbRead, RbWrite, RbVerify, Disarm}
  }

  predicate Working(pc: Pc) {
    pc in {Load, RbRead, RbWrite, RbVerify, Disarm, Complete}
  }

  /** What was there before is in a state file that is still pending. */
  ghost predicate Backed(sn: Snapshot, run: Run, states: map<Run, Snapshot>) {
    && Pending(states, run)
    && states[run].kind == sn.kind && states[run].path == sn.path && states[run].before == sn.before
    && states[run].owner == sn.owner
    && states[run].applied == sn.applied
  }

  /** The state file is what was read or written, perhaps completed since. */
  ghost predicate Kept(sn: Snapshot, run: Run, states: map<Run, Snapshot>) {
    run in states && !sn.completed && states[run].(completed := false) == sn
  }

  /** Apply has its change to itself; from the first write on, the target before is on disk, and while the target is
      being changed the timer runs. */
  ghost predicate Alone(p: Process, run: Run, d: Disk) {
    && p.role == Applying && p.run == run && p.pc != Load
    && (p.pc in {Abandon, GiveUp} ==> Kept(p.snapshot, run, d.states))
    && (p.pc !in CALM ==>
          && !p.snapshot.completed && run !in d.locks && run !in d.confirmed && run !in d.undone
          && (Early(p.pc) ==> run !in d.states && run !in d.timers)
          && (!Early(p.pc) ==> Backed(p.snapshot, run, d.states))
          && (p.pc in {Arm, See} ==> Kept(p.snapshot, run, d.states))
          && (Guarded(p.pc) ==> run in d.timers))
  }

  /** A command at work holds the lock of its run, and its state file is as it read it; strict, also still pending. */
  ghost predicate InTurn(p: Process, d: Disk, strict: bool) {
    && Commanding(p)
    && (Working(p.pc) ==> p.run in d.locks)
    && (Working(p.pc) && p.pc != Load ==>
          && Kept(p.snapshot, p.run, d.states) && p.run !in d.confirmed && p.run !in d.undone
          && (strict ==> Pending(d.states, p.run)))
  }

  ghost predicate Completed(d: Disk, run: Run) {
    run in d.states && d.states[run].completed
  }

  function Awaited(strict: bool): set<Pc> {
    if strict then GONE else CALM
  }

  ghost predicate CommandOn(s: State, id: nat, run: Run) {
    Command(id) in s.procs && s.procs[Command(id)].run == run
  }

  /** The commands on a run are in order; strict, when they waited for apply to be gone. */
  ghost predicate InOrder(s: State, run: Run, strict: bool) {
    && (Applier(run) in s.procs ==> Alone(s.procs[Applier(run)], run, s.disk))
    && (forall k: nat :: CommandOn(s, k, run) ==>
          ApplyAt(s, run, Awaited(strict)) && InTurn(s.procs[Command(k)], s.disk, strict))
    && (forall j: nat, k: nat ::
          j != k && CommandOn(s, j, run) && CommandOn(s, k, run) && Working(s.procs[Command(j)].pc) ==>
            !Working(s.procs[Command(k)].pc))
    && (run in s.disk.confirmed ==> Completed(s.disk, run) && run !in s.disk.undone)
    && (run in s.disk.undone ==> Completed(s.disk, run))
    && (run in s.disk.timers || run in s.disk.locks || run in s.disk.states || run in s.disk.confirmed
         || run in s.disk.undone ==>
          Applier(run) in s.procs)
  }

  lemma ApplyAlone(p: Process, run: Run, d: Disk, c: Choice)
    requires Alone(p, run, d) && p.pc !in CALM
    ensures var (q, e) := Act(p, d, c);
            && Alone(q, run, e) && run !in e.confirmed && e.locks == d.locks
            && (run in e.undone ==> q.pc == Ended && Completed(e, run))
  {
    hide Act, Alone;
    if Early(p.pc) {
      ApplyAloneEarly(p, run, d, c);
    } else if p.pc in {Arm, See} {
      ApplyAloneArming(p, run, d, c);
    } else if p.pc == Apply {
      ApplyAloneApplies(p, run, d, c);
    } else {
      ApplyAloneAfter(p, run, d, c);
    }
  }

  lemma ApplyAloneEarly(p: Process, run: Run, d: Disk, c: Choice)
    requires Alone(p, run, d) && Early(p.pc)
    ensures var (q, e) := Act(p, d, c);
            Alone(q, run, e) && run !in e.confirmed && e.locks == d.locks && run !in e.undone
  {
    hide AppliedFile, Judge, Written;
  }

  lemma ApplyAloneArming(p: Process, run: Run, d: Disk, c: Choice)
    requires Alone(p, run, d) && p.pc in {Arm, See}
    ensures var (q, e) := Act(p, d, c);
            Alone(q, run, e) && run !in e.confirmed && e.locks == d.locks && run !in e.undone
  {
    hide AppliedFile, Judge, Written;
  }

  lemma ApplyAloneApplies(p: Process, run: Run, d: Disk, c: Choice)
    requires Alone(p, run, d) && p.pc == Apply
    ensures var (q, e) := Act(p, d, c);
            Alone(q, run, e) && run !in e.confirmed && e.locks == d.locks && run !in e.undone
  {
    hide AppliedFile, Judge, Written;
  }

  lemma ApplyAloneAfter(p: Process, run: Run, d: Disk, c: Choice)
    requires Alone(p, run, d) && p.pc !in CALM && !Early(p.pc) && p.pc !in {Arm, See, Apply}
    ensures var (q, e) := Act(p, d, c);
            && Alone(q, run, e) && run !in e.confirmed && e.locks == d.locks
            && (run in e.undone ==> q.pc == Ended && Completed(e, run))
  {
    hide Judge, Written;
  }

  lemma ApplyGivesUp(p: Process, run: Run, d: Disk, c: Choice)
    requires Alone(p, run, d) && p.pc in {Abandon, GiveUp}
    ensures var (q, e) := Act(p, d, c);
            && Alone(q, run, e) && q.pc in CALM && (p.pc == Abandon ==> q.pc == GiveUp)
            && e.locks == d.locks && e.confirmed == d.confirmed && e.undone == d.undone
            && (e.states == d.states || e.states == d.states[run := p.snapshot.(completed := true)])
  {
  }

  lemma CommandInTurn(p: Process, d: Disk, c: Choice, strict: bool)
    requires InTurn(p, d, strict) && p.pc !in GONE
    requires Pending(d.states, p.run) ==> p.run !in d.confirmed && p.run !in d.undone
    ensures var (q, e) := Act(p, d, c);
            && InTurn(q, e, strict)
            && (Working(q.pc) ==> p.run !in d.locks || Working(p.pc))
            && (p.run in e.timers ==> p.run in d.timers)
            && (p.run in e.states <==> p.run in d.states)
  {
    hide Judge, AppliedFile, Written;
  }

  /** A command completes the state file when it confirms or undoes, and only then. */
  lemma CommandDone(p: Process, d: Disk, c: Choice, strict: bool)
    requires InTurn(p, d, strict) && p.pc !in GONE
    ensures var e := Act(p, d, c).1;
            && (e.confirmed != d.confirmed || e.undone != d.undone || e.states != d.states ==> p.pc == Complete)
            && (e.confirmed == d.confirmed || (e.confirmed == d.confirmed + {p.run} && e.undone == d.undone
                 && Completed(e, p.run)))
            && (e.undone == d.undone || (e.undone == d.undone + {p.run} && e.confirmed == d.confirmed
                 && Completed(e, p.run)))
            && (Completed(d, p.run) ==> Completed(e, p.run))
            && (e.states == d.states || e.states == d.states[p.run := p.snapshot.(completed := true)])
  {
    hide Judge, AppliedFile, Written;
  }

  lemma OnlyWorkersUnlock(p: Process, d: Disk, c: Choice)
    requires Commanding(p) && !Working(p.pc)
    ensures Act(p, d, c).1 == d || (p.run !in d.locks && Act(p, d, c).1 == d.(locks := d.locks + {p.run}))
  {
    hide Judge, AppliedFile, Written;
  }

  // The steps of another run.

  lemma OtherInOrder(s: State, t: State, run: Run, strict: bool)
    requires InOrder(s, run, strict) && SameFor(s.disk, t.disk, run)
    requires Applier(run) in s.procs <==> Applier(run) in t.procs
    requires Applier(run) in s.procs ==> t.procs[Applier(run)] == s.procs[Applier(run)]
    requires forall k: nat :: CommandOn(t, k, run) <==> CommandOn(s, k, run)
    requires forall k: nat :: CommandOn(s, k, run) && CommandOn(t, k, run) ==>
               t.procs[Command(k)] == s.procs[Command(k)]
    ensures InOrder(t, run, strict)
  {
  }

  lemma OtherDoes(s: State, who: Who, c: Choice, run: Run, strict: bool)
    requires InOrder(s, run, strict) && OneAtATime(s) && Live(s, who) && s.procs[who].run != run
    ensures InOrder(Next(s, Does(who, c)), run, strict)
  {
    hide Act, InOrder, Elsewhere;
    var p, t := s.procs[who], Next(s, Does(who, c));
    assert Formed(who, p, s.disk);
    ActElsewhere(p, s.disk, c);
    SameElsewhere(s.disk, t.disk, p.run, run);
    OtherInOrder(s, t, run, strict);
  }

  lemma SameElsewhere(d: Disk, e: Disk, run: Run, x: Run)
    requires Elsewhere(d, e, run) && x != run
    ensures SameFor(d, e, x)
  {
  }

  // The steps of the run itself.

  lemma ApplierInOrder(s: State, run: Run, c: Choice, strict: bool)
    requires InOrder(s, run, strict) && Live(s, Applier(run))
    ensures InOrder(Next(s, Does(Applier(run), c)), run, strict)
  {
    hide Act, Alone, InTurn;
    var p, t := s.procs[Applier(run)], Next(s, Does(Applier(run), c));
    if p.pc in {Abandon, GiveUp} {
      AbandonInOrder(s, run, c, strict);
    } else {
      assert p.pc !in CALM;
      ApplyAlone(p, run, s.disk, c);
      NotYet(p, run, s.disk);
      assert forall k: nat :: !CommandOn(t, k, run);
    }
  }

  lemma NotYet(p: Process, run: Run, d: Disk)
    requires Alone(p, run, d) && p.pc !in CALM
    ensures run !in d.confirmed && run !in d.undone
  {
  }

  lemma AbandonInOrder(s: State, run: Run, c: Choice, strict: bool)
    requires InOrder(s, run, strict) && Live(s, Applier(run)) && s.procs[Applier(run)].pc in {Abandon, GiveUp}
    ensures InOrder(Next(s, Does(Applier(run), c)), run, strict)
  {
    hide Act, InTurn;
    var p, t := s.procs[Applier(run)], Next(s, Does(Applier(run), c));
    ApplyGivesUp(p, run, s.disk, c);
    forall k: nat | CommandOn(t, k, run)
      ensures ApplyAt(t, run, Awaited(strict)) && InTurn(t.procs[Command(k)], t.disk, strict)
    {
      assert CommandOn(s, k, run) && !strict;
      InTurnAnyway(t.procs[Command(k)], p.snapshot, s.disk, t.disk);
    }
    assert forall k: nat :: CommandOn(t, k, run) ==> CommandOn(s, k, run) && t.procs[Command(k)] == s.procs[Command(k)];
  }

  lemma InTurnAnyway(p: Process, sn: Snapshot, d: Disk, e: Disk)
    requires InTurn(p, d, false) && Kept(sn, p.run, d.states)
    requires e.states == d.states || e.states == d.states[p.run := sn.(completed := true)]
    requires e.locks == d.locks && e.confirmed == d.confirmed && e.undone == d.undone
    ensures InTurn(p, e, false)
  {
  }

  lemma CommandInOrder(s: State, id: nat, run: Run, c: Choice, strict: bool)
    requires InOrder(s, run, strict) && CommandOn(s, id, run) && Live(s, Command(id))
    ensures InOrder(Next(s, Does(Command(id), c)), run, strict)
  {
    hide Act, InTurn, Alone;
    var p, t := s.procs[Command(id)], Next(s, Does(Command(id), c));
    var (q, e) := Act(p, s.disk, c);
    ActElsewhere(p, s.disk, c);
    CommandInTurn(p, s.disk, c, strict);
    CommandDone(p, s.disk, c, strict);
    CompleterFirst(p, s.disk, strict);
    AloneBeside(s.procs[Applier(run)], p, run, s.disk, c, strict);
    forall k: nat | CommandOn(t, k, run) && k != id
      ensures InTurn(t.procs[Command(k)], t.disk, strict)
      ensures Working(q.pc) ==> !Working(t.procs[Command(k)].pc)
    {
      assert CommandOn(s, k, run) && CommandOn(s, id, run);
      OneLockHolder(s.procs[Command(k)], p, s.disk, c, strict);
    }
    assert forall k: nat :: CommandOn(t, k, run) && k != id ==> t.procs[Command(k)] == s.procs[Command(k)];
    assert t.procs[Applier(run)] == s.procs[Applier(run)];
  }

  lemma CompleterFirst(p: Process, d: Disk, strict: bool)
    requires InTurn(p, d, strict)
    ensures p.pc == Complete ==> p.run in d.states && p.run !in d.confirmed && p.run !in d.undone
  {
  }

  lemma AloneBeside(a: Process, p: Process, run: Run, d: Disk, c: Choice, strict: bool)
    requires Alone(a, run, d) && a.pc in Awaited(strict) && InTurn(p, d, strict) && p.run == run && p.pc !in GONE
    ensures Alone(a, run, Act(p, d, c).1)
  {
    hide Act;
    CommandDone(p, d, c, strict);
  }

  /** Another command on the same run is not at work while this one is, or gets to be. */
  lemma OneLockHolder(other: Process, p: Process, d: Disk, c: Choice, strict: bool)
    requires InTurn(other, d, strict) && InTurn(p, d, strict) && other.run == p.run && p.pc !in GONE
    requires Working(p.pc) ==> !Working(other.pc)
    ensures var (q, e) := Act(p, d, c); InTurn(other, e, strict) && (Working(q.pc) ==> !Working(other.pc))
  {
    hide Act;
    if !Working(p.pc) {
      OnlyWorkersUnlock(p, d, c);
      LockedByOthers(p, d, c);
    }
  }

  lemma LockedByOthers(p: Process, d: Disk, c: Choice)
    requires Commanding(p) && !Working(p.pc)
    ensures Working(Act(p, d, c).0.pc) ==> p.run !in d.locks
  {
    hide Judge, AppliedFile, Written;
  }

  lemma StartInOrder(s: State, step: Step, run: Run, strict: bool)
    requires InOrder(s, run, strict) && Enabled(s, step) && step.StartApply?
    ensures InOrder(Next(s, step), run, strict)
  {
    var t := Next(s, step);
    assert forall k: nat :: CommandOn(t, k, run) <==> CommandOn(s, k, run);
  }

  lemma BeginInOrder(s: State, step: Step, run: Run, strict: bool)
    requires InOrder(s, run, strict) && Enabled(s, step) && (step.StartCommand? || step.Fire?)
    requires Begins(s, step, run) ==> ApplyAt(s, run, Awaited(strict))
    ensures InOrder(Next(s, step), run, strict)
  {
    hide InOrder;
    var t := Next(s, step);
    if step.run != run {
      OtherInOrder(s, t, run, strict);
    } else {
      var p := t.procs[Command(step.id)];
      BegunInOrder(s, step.id, p, t.disk.timers, run, strict);
    }
  }

  lemma BegunInOrder(s: State, id: nat, p: Process, timers: set<Run>, run: Run, strict: bool)
    requires InOrder(s, run, strict) && ApplyAt(s, run, Awaited(strict)) && Command(id) !in s.procs
    requires p.role != Applying && p.pc == Lock && p.run == run
    requires (timers == s.disk.timers || timers == s.disk.timers - {run})
    ensures InOrder(State(s.disk.(timers := timers), s.procs[Command(id) := p]), run, strict)
  {
    hide Alone, InTurn;
    var t := State(s.disk.(timers := timers), s.procs[Command(id) := p]);
    TimerGone(s.procs[Applier(run)], run, s.disk);
    forall k: nat | CommandOn(t, k, run)
      ensures InTurn(t.procs[Command(k)], t.disk, strict)
    {
      if k == id {
        NotYetInTurn(p, t.disk, strict);
      } else {
        assert CommandOn(s, k, run);
        InTurnWithout(t.procs[Command(k)], s.disk, t.disk, strict);
      }
    }
    assert forall k: nat :: k != id ==> (CommandOn(t, k, run) <==> CommandOn(s, k, run));
  }

  lemma TimerGone(p: Process, run: Run, d: Disk)
    requires Alone(p, run, d) && p.pc in CALM
    ensures Alone(p, run, d.(timers := d.timers - {run}))
  {
  }

  lemma NotYetInTurn(p: Process, d: Disk, strict: bool)
    requires p.role != Applying && p.pc == Lock
    ensures InTurn(p, d, strict)
  {
  }

  lemma InTurnWithout(p: Process, d: Disk, e: Disk, strict: bool)
    requires InTurn(p, d, strict) && e == d.(timers := e.timers)
    ensures InTurn(p, e, strict)
  {
  }

  lemma CrashInOrder(s: State, who: Who, run: Run, strict: bool)
    requires InOrder(s, run, strict) && Live(s, who)
    ensures InOrder(Next(s, Crashes(who)), run, strict)
  {
    hide Alone, InTurn;
    var t := Next(s, Crashes(who));
    if who == Applier(run) {
      CrashedIs(s.procs[who], run, s.disk);
    }
    forall k: nat | CommandOn(t, k, run)
      ensures InTurn(t.procs[Command(k)], t.disk, strict)
    {
      assert CommandOn(s, k, run);
      CrashedInTurn(s.procs[Command(k)], s.disk, strict);
    }
    assert forall k: nat :: CommandOn(t, k, run) <==> CommandOn(s, k, run);
  }

  lemma CrashedIs(p: Process, run: Run, d: Disk)
    requires Alone(p, run, d)
    ensures Alone(p.(pc := Crashed), run, d)
  {
  }

  lemma CrashedInTurn(p: Process, d: Disk, strict: bool)
    requires InTurn(p, d, strict)
    ensures InTurn(p.(pc := Crashed), d, strict)
  {
  }

  lemma EditInOrder(s: State, path: string, file: File, run: Run, strict: bool)
    requires InOrder(s, run, strict)
    ensures InOrder(Next(s, Edit(path, file)), run, strict)
  {
    var t := Next(s, Edit(path, file));
    assert forall k: nat :: CommandOn(t, k, run) <==> CommandOn(s, k, run);
  }

  /** What every step of any process keeps for a run, when commands on this run wait. */
  lemma OrderKept(s: State, step: Step, run: Run, strict: bool)
    requires InOrder(s, run, strict) && OneAtATime(s)
    requires Begins(s, step, run) ==> ApplyAt(s, run, Awaited(strict))
    ensures InOrder(Next(s, step), run, strict)
  {
    hide InOrder, Act;
    if Enabled(s, step) {
      match step {
        case StartApply(_, _, _, _) => StartInOrder(s, step, run, strict);
        case StartCommand(_, _, _) => BeginInOrder(s, step, run, strict);
        case Fire(_, _) => BeginInOrder(s, step, run, strict);
        case Does(who, c) =>
          assert Formed(who, s.procs[who], s.disk);
          if s.procs[who].run != run {
            OtherDoes(s, who, c, run, strict);
          } else {
            match who {
              case Applier(_) => ApplierInOrder(s, run, c, strict);
              case Command(id) => CommandInOrder(s, id, run, c, strict);
            }
          }
        case Crashes(who) => CrashInOrder(s, who, run, strict);
        case Edit(path, file) => EditInOrder(s, path, file, run, strict);
      }
    }
  }

  lemma {:induction false} RunInOrder(targets: map<string, File>, steps: seq<Step>, run: Run, strict: bool)
    requires Waits(targets, steps, run, Awaited(strict))
    ensures InOrder(RunOf(targets, steps), run, strict)
  {
    hide Next, Begins;
    if steps == [] {
    } else {
      var n := |steps| - 1;
      RunInOrder(targets, steps[..n], run, strict);
      OnePending(targets, steps[..n]);
      OrderKept(RunOf(targets, steps[..n]), steps[n], run, strict);
    }
  }

  /** The target as it was read before is in a pending state file, and the timer runs. */
  ghost predicate Under(s: State, run: Run)
    requires Applier(run) in s.procs
  {
    && run in s.disk.timers && Pending(s.disk.states, run)
    && s.disk.states[run].before == s.procs[Applier(run)].snapshot.before
    && s.disk.states[run].path == s.procs[Applier(run)].snapshot.path
  }

  /** Whatever of its target apply changes next, it changes under guard. */
  ghost predicate Protected(s: State, run: Run) {
    Live(s, Applier(run)) ==>
      forall c: Choice :: Act(s.procs[Applier(run)], s.disk, c).1.targets != s.disk.targets ==> Under(s, run)
  }

  ghost predicate BothSucceeded(s: State, run: Run) {
    run in s.disk.confirmed && run in s.disk.undone
  }

  /** No run is both confirmed and undone, when commands on it begin only once its apply has changed all it will; and
      once it is either, it is completed. */
  lemma NeverBoth(targets: map<string, File>, steps: seq<Step>, run: Run)
    requires Waits(targets, steps, run, CALM)
    ensures var s := RunOf(targets, steps);
            !BothSucceeded(s, run) && (run in s.disk.confirmed || run in s.disk.undone ==> Completed(s.disk, run))
  {
    RunInOrder(targets, steps, run, false);
  }

  /** Under the same condition, whoever is about to complete a change finds it neither confirmed nor rolled back, and
      its state file as it knows it. */
  lemma DoneOnce(targets: map<string, File>, steps: seq<Step>, who: Who)
    requires var s := RunOf(targets, steps);
             who in s.procs && s.procs[who].pc == Complete && Waits(targets, steps, s.procs[who].run, CALM)
    ensures var s := RunOf(targets, steps);
            var run, sn := s.procs[who].run, s.procs[who].snapshot;
            && run !in s.disk.confirmed && run !in s.disk.undone && !sn.completed && run in s.disk.states
            && s.disk.states[run].path == sn.path && s.disk.states[run].before == sn.before
  {
    hide RunOf;
    var s := RunOf(targets, steps);
    OnePending(targets, steps);
    assert Formed(who, s.procs[who], s.disk);
    RunInOrder(targets, steps, s.procs[who].run, false);
    if who.Command? {
      assert CommandOn(s, who.id, s.procs[who].run);
    }
  }

  /** Under the same condition, whenever apply changes a target, what was there before is in a pending state file and
      the timer runs. */
  lemma ChangedUnderGuard(targets: map<string, File>, steps: seq<Step>, run: Run)
    requires Waits(targets, steps, run, CALM)
    ensures Protected(RunOf(targets, steps), run)
  {
    hide Act, InTurn;
    var s := RunOf(targets, steps);
    RunInOrder(targets, steps, run, false);
    if Live(s, Applier(run)) {
      forall c: Choice | Act(s.procs[Applier(run)], s.disk, c).1.targets != s.disk.targets
        ensures Under(s, run)
      {
        WhereTargetsChange(s.procs[Applier(run)], s.disk, c);
      }
    }
  }
}
