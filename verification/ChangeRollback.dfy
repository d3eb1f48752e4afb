// What a rollback replaces and what it leaves, over every run in which commands wait until apply is gone: exactly which
// edits by others are lost, and exactly when a run that was rolled back has its target as before.
module ChangeRollback {
  import opened Folds
  import opened ChangeTarget
  import opened ChangeProtocol
  import opened ChangeGuard
  import opened ChangeTooEarly

  /** The commands on every run begin only when its apply is somewhere in these steps. */
  ghost predicate AllWait(targets: map<string, File>, steps: seq<Step>, pcs: set<Pc>) {
    forall run: Run :: Waits(targets, steps, run, pcs)
  }

  /** A file keeps its owner in a snapshot. */
  ghost predicate Sound(sn: Snapshot) {
    sn.kind == Keys && sn.before.Present? ==> sn.before.owner == sn.owner
  }

  /** What holds in such a run. */
  ghost predicate Strict(s: State) {
    && OneAtATime(s)
    && (forall run: Run {:trigger InOrder(s, run, true)} :: InOrder(s, run, true))
    && (forall x :: x in s.disk.states ==> Sound(s.disk.states[x]))
    && (forall w :: w in s.procs ==> Sound(s.procs[w].snapshot))
  }

  lemma ActSound(p: Process, d: Disk, c: Choice)
    requires Sound(p.snapshot) && forall x :: x in d.states ==> Sound(d.states[x])
    ensures Sound(Act(p, d, c).0.snapshot) && forall x :: x in Act(p, d, c).1.states ==> Sound(Act(p, d, c).1.states[x])
  {
    hide Act, Sound;
    ActOnlyOwn(p, d, c);
    CompletedSound(p.snapshot);
    SnapshotSound(p, d, c);
  }

  lemma CompletedSound(sn: Snapshot)
    requires Sound(sn)
    ensures Sound(sn.(completed := true))
  {
  }

  lemma SnapshotSound(p: Process, d: Disk, c: Choice)
    requires Sound(p.snapshot) && forall x :: x in d.states ==> Sound(d.states[x])
    ensures Sound(Act(p, d, c).0.snapshot)
  {
    hide Judge, AppliedFile, Written;
  }

  lemma NoSnapshotSound()
    ensures Sound(NO_SNAPSHOT) && forall kind, path, content ::
              Sound(Snapshot(kind, path, Absent, 0, content, "", false))
  {
  }

  lemma StepSound(s: State, step: Step)
    requires (forall x :: x in s.disk.states ==> Sound(s.disk.states[x])) && forall w :: w in s.procs ==>
               Sound(s.procs[w].snapshot)
    ensures forall x :: x in Next(s, step).disk.states ==> Sound(Next(s, step).disk.states[x])
    ensures forall w :: w in Next(s, step).procs ==> Sound(Next(s, step).procs[w].snapshot)
  {
    hide Act, Sound;
    NoSnapshotSound();
    if step.Does? && Enabled(s, step) {
      ActSound(s.procs[step.who], s.disk, step.choice);
    }
  }

  lemma {:induction false} RunStrict(targets: map<string, File>, steps: seq<Step>)
    requires AllWait(targets, steps, GONE)
    ensures Strict(RunOf(targets, steps))
  {
    hide InOrder, Next, Sound, Begins;
    OnePending(targets, steps);
    forall run: Run
      ensures InOrder(RunOf(targets, steps), run, true)
    {
      RunInOrder(targets, steps, run, true);
    }
    if steps != [] {
      WaitBefore(targets, steps);
      RunStrict(targets, steps[..|steps| - 1]);
      StepSound(RunOf(targets, steps[..|steps| - 1]), steps[|steps| - 1]);
    }
  }

  lemma WaitBefore(targets: map<string, File>, steps: seq<Step>)
    requires AllWait(targets, steps, GONE) && steps != []
    ensures AllWait(targets, steps[..|steps| - 1], GONE)
  {
    hide Begins, RunOf;
    var before := steps[..|steps| - 1];
    forall run: Run
      ensures Waits(targets, before, run, GONE)
    {
      assert Waits(targets, steps, run, GONE);
    }
  }

  // One process at a time has a target in its hands.

  const BUSY: set<Pc> := {Apply, RbWrite, Disarm, Complete}

  lemma BusyIsPending(s: State, who: Who)
    requires Strict(s) && who in s.procs && s.procs[who].pc in BUSY
    ensures Pending(s.disk.states, s.procs[who].run)
  {
    hide Sound, InOrder;
    var p := s.procs[who];
    assert InOrder(s, p.run, true) && Formed(who, p, s.disk);
    BusyInOrder(s, who, p.run);
  }

  lemma BusyInOrder(s: State, who: Who, run: Run)
    requires InOrder(s, run, true) && who in s.procs && Formed(who, s.procs[who], s.disk) && s.procs[who].run == run
    requires s.procs[who].pc in BUSY
    ensures Pending(s.disk.states, run)
    ensures who.Command? ==> ApplyAt(s, run, GONE) && CommandOn(s, who.id, run) && Working(s.procs[who].pc)
    ensures who.Applier? ==> who.run == run
  {
    if who.Command? {
      assert CommandOn(s, who.id, run);
    }
  }

  /** While one process changes a target or is about to say that it rolled back, no other is. */
  lemma OthersWait(s: State, u: Who, v: Who)
    requires Strict(s) && u in s.procs && v in s.procs && s.procs[u].pc in BUSY && s.procs[v].pc in BUSY
    ensures u == v
  {
    hide Sound, InOrder;
    BusyIsPending(s, u);
    BusyIsPending(s, v);
    var run := s.procs[u].run;
    assert AtMostOne(s.disk.states);
    assert s.procs[v].run == run;
    assert InOrder(s, run, true) && Formed(u, s.procs[u], s.disk) && Formed(v, s.procs[v], s.disk);
    BusyInOrder(s, u, run);
    BusyInOrder(s, v, run);
    if u.Command? && v.Command? {
      OneCommand(s, u.id, v.id, run);
    }
  }

  lemma OneCommand(s: State, j: nat, k: nat, run: Run)
    requires InOrder(s, run, true) && CommandOn(s, j, run) && CommandOn(s, k, run)
    requires Working(s.procs[Command(j)].pc) && Working(s.procs[Command(k)].pc)
    ensures j == k
  {
  }

  // Edits by others.

  /** What the last edit of a path made of it. */
  ghost function LastEdit(steps: seq<Step>, path: string): Option<File> {
    if steps == [] then None else
    var last := steps[|steps| - 1];
    if last.Edit? && last.path == path then Some(last.file) else LastEdit(steps[..|steps| - 1], path)
  }

  ghost function Edited(steps: seq<Step>, path: string, file: File): File {
    match LastEdit(steps, path) case Some(f) => f case None => file
  }

  ghost function EditOf(step: Step, path: string, file: File): File {
    if step.Edit? && step.path == path then step.file else file
  }

  /** The file a rollback takes for the one that was applied. */
  function Expected(sn: Snapshot): File {
    Present(sn.applied, if sn.before.Present? then sn.before.mode else DEFAULT_MODE, sn.owner)
  }

  /** It is the one that was applied, but for a file that had no permissions at all. */
  lemma ExpectedIsApplied(sn: Snapshot)
    ensures Expected(sn) == AppliedFile(sn) <==> sn.before.Absent? || sn.before.mode != 0
  {
  }

  lemma RestoresExpected(sn: Snapshot, file: File)
    requires sn.kind == Keys && Judge(sn, file) == Restore
    ensures file == Expected(sn)
  {
  }

  /** A rollback that has looked at its target and goes by what it saw: a target it is about to replace, or the target
      as before. */
  predicate Relies(p: Process) {
    p.pc == RbWrite || (p.pc in {Disarm, Complete} && p.role != Confirming)
  }

  /** The target is one that the rollback could have seen. */
  predicate Judged(p: Process, file: File)
    requires Relies(p)
  {
    if p.pc == RbWrite then Judge(p.snapshot, file) == Restore else file == p.snapshot.before
  }

  /** What a rollback comes to rely on, it sees or makes so in the same step. */
  lemma ComesToRely(p: Process, d: Disk, c: Choice)
    requires Sound(p.snapshot) && p.pc !in {Disarm, Complete}
    ensures var (q, e) := Act(p, d, c);
            Relies(q) ==>
              && p.pc in {RbRead, RbWrite, RbVerify} && (q.pc == RbWrite ==> p.pc == RbRead)
              && q.pc in {RbWrite, Disarm}
              && q.snapshot == p.snapshot && Judged(q, Look(e.targets, q.snapshot.path))
  {
    if p.pc !in {RbRead, RbWrite, RbVerify} {
      OthersDoNotRely(p, d, c);
    }
  }

  lemma OthersDoNotRely(p: Process, d: Disk, c: Choice)
    requires p.pc !in {RbRead, RbWrite, RbVerify, Disarm, Complete}
    ensures !Relies(Act(p, d, c).0)
  {
    hide AppliedFile, Written, Look;
  }

  /** From then on only edits change it, as long as it is relied on. */
  lemma GoesOnRelying(p: Process, d: Disk, c: Choice)
    requires p.pc in {Disarm, Complete}
    ensures var (q, e) := Act(p, d, c);
            Relies(q) ==>
              && Relies(p) && q.snapshot == p.snapshot && e.targets == d.targets
              && p.pc == Disarm && q.pc == Complete
  {
  }

  lemma OthersLeaveIt(s: State, other: Who, c: Choice, who: Who)
    requires Strict(s) && Live(s, other) && who in s.procs && other != who && Relies(s.procs[who])
    ensures Act(s.procs[other], s.disk, c).1.targets == s.disk.targets
  {
    hide Act, Strict;
    WhereTargetsChange(s.procs[other], s.disk, c);
    if s.procs[other].pc in {Apply, RbWrite} {
      OthersWait(s, other, who);
    }
  }

  /** The step is the one by which the process comes to rely on its target. */
  ghost predicate Saws(s: State, step: Step, who: Who) {
    var t := Next(s, step);
    && step.Does? && step.who == who && who in s.procs && who in t.procs && Relies(t.procs[who])
    && s.procs[who].pc in {RbRead, RbWrite, RbVerify} && (t.procs[who].pc == RbWrite ==> s.procs[who].pc == RbRead)
    && t.procs[who].pc in {RbWrite, Disarm} && Judged(t.procs[who], Look(t.disk.targets, t.procs[who].snapshot.path))
  }

  /** The step leaves the process relying on the same, and changes it only as an edit. */
  ghost predicate KeepsRelying(s: State, step: Step, who: Who) {
    var t := Next(s, step);
    && who in s.procs && who in t.procs && Relies(s.procs[who]) && Relies(t.procs[who])
    && t.procs[who].snapshot == s.procs[who].snapshot
    && (t.procs[who].pc == RbWrite <==> s.procs[who].pc == RbWrite)
    && Look(t.disk.targets, t.procs[who].snapshot.path)
       == EditOf(step, t.procs[who].snapshot.path, Look(s.disk.targets, t.procs[who].snapshot.path))
  }

  lemma RelyingStep(s: State, step: Step, who: Who)
    requires Strict(s) && who in Next(s, step).procs && Relies(Next(s, step).procs[who])
    ensures Saws(s, step, who) || KeepsRelying(s, step, who)
  {
    hide Act, Strict;
    if Enabled(s, step) && step.Does? && step.who == who {
      OwnStep(s, step.choice, who);
    } else if Enabled(s, step) && step.Does? && who in s.procs && Relies(s.procs[who]) {
      OthersLeaveIt(s, step.who, step.choice, who);
    }
  }

  lemma OwnStep(s: State, c: Choice, who: Who)
    requires Strict(s) && Live(s, who) && Relies(Next(s, Does(who, c)).procs[who])
    ensures Saws(s, Does(who, c), who) || KeepsRelying(s, Does(who, c), who)
  {
    hide Act, OneAtATime, InOrder, Sound;
    var p := s.procs[who];
    if p.pc in {Disarm, Complete} {
      GoesOnRelying(p, s.disk, c);
    } else {
      ComesToRely(p, s.disk, c);
    }
  }

  lemma LastEditSnoc(steps: seq<Step>, step: Step, path: string, file: File)
    ensures Edited(steps + [step], path, file) == EditOf(step, path, Edited(steps, path, file))
  {
    assert (steps + [step])[..|steps|] == steps;
  }

  lemma TailSnoc(steps: seq<Step>, k: nat)
    requires k + 1 < |steps|
    ensures var n := |steps| - 1;
            steps[..n][..k] == steps[..k] && steps[..n][k] == steps[k]
              && steps[k + 1..] == steps[..n][k + 1..] + [steps[n]]
  {
  }

  /** In every run: what a rollback relies on is as it saw it, but for edits since the step by which it did. */
  lemma {:induction false} ReliedOnSince(targets: map<string, File>, steps: seq<Step>, who: Who) returns (k: nat)
    requires AllWait(targets, steps, GONE)
    requires var s := RunOf(targets, steps); who in s.procs && Relies(s.procs[who])
    ensures k < |steps| && Saws(RunOf(targets, steps[..k]), steps[k], who)
    ensures var s, t := RunOf(targets, steps), Next(RunOf(targets, steps[..k]), steps[k]);
            && (t.procs[who].pc == RbWrite <==> s.procs[who].pc == RbWrite)
            && t.procs[who].snapshot == s.procs[who].snapshot
            && var path := s.procs[who].snapshot.path;
               Look(s.disk.targets, path) == Edited(steps[k + 1..], path, Look(t.disk.targets, path))
  {
    hide Next, Saws, Relies, Judged, AllWait, Look, Strict;
    k := 0;
    if steps != [] {
      var n := |steps| - 1;
      var before, step := steps[..n], steps[n];
      WaitBefore(targets, steps);
      RunStrict(targets, before);
      RelyingStep(RunOf(targets, before), step, who);
      if Saws(RunOf(targets, before), step, who) {
        k := n;
        SawIs(RunOf(targets, before), step, who);
        assert steps[n + 1..] == [];
      } else {
        k := ReliedOnSince(targets, before, who);
        var path := RunOf(targets, before).procs[who].snapshot.path;
        TailSnoc(steps, k);
        LastEditSnoc(before[k + 1..], step, path,
          Look(Next(RunOf(targets, before[..k]), before[k]).disk.targets, path));
      }
    }
  }

  lemma SawIs(s: State, step: Step, who: Who)
    requires Saws(s, step, who)
    ensures var t := Next(s, step);
            && step.Does? && step.who == who && who in s.procs && who in t.procs && Relies(t.procs[who])
            && s.procs[who].pc in {RbRead, RbWrite, RbVerify}
            && (t.procs[who].pc == RbWrite ==> s.procs[who].pc == RbRead)
            && Judged(t.procs[who], Look(t.disk.targets, t.procs[who].snapshot.path))
  {
  }

  /** What a rollback, by command or by apply, replaces: the target it judged, but for edits between the reading and the
      writing, which does not look again. A keys file that it judged is the one it takes for the applied one. */
  lemma WhatIsReplaced(targets: map<string, File>, steps: seq<Step>, who: Who) returns (k: nat)
    requires AllWait(targets, steps, GONE)
    requires var s := RunOf(targets, steps); who in s.procs && s.procs[who].pc == RbWrite
    ensures k < |steps| && steps[k].Does? && steps[k].who == who
    ensures var b := RunOf(targets, steps[..k]); who in b.procs && b.procs[who].pc == RbRead
    ensures var s := RunOf(targets, steps);
            var sn := s.procs[who].snapshot;
            var seen, now := Look(RunOf(targets, steps[..k + 1]).disk.targets, sn.path), Look(s.disk.targets, sn.path);
            && Judge(sn, seen) == Restore && now == Edited(steps[k + 1..], sn.path, seen)
            && (sn.kind == Keys ==>
                  && seen == Expected(sn)
                  && (sn.before.Absent? || sn.before.mode != 0 ==> seen == AppliedFile(sn))
                  && (now == Expected(sn) <==> LastEdit(steps[k + 1..], sn.path) in {None, Some(Expected(sn))})
                  && Replaces(s.procs[who], s.disk))
  {
    hide AllWait, RunOf, Judge, AppliedFile;
    k := ReliedOnSince(targets, steps, who);
    SawIs(RunOf(targets, steps[..k]), steps[k], who);
    assert steps[..k + 1] == steps[..k] + [steps[k]];
    RunSnoc(targets, steps[..k], steps[k]);
    var sn := RunOf(targets, steps).procs[who].snapshot;
    if sn.kind == Keys {
      RestoresExpected(sn, Look(RunOf(targets, steps[..k + 1]).disk.targets, sn.path));
      ExpectedIsApplied(sn);
    }
  }

  /** Whatever is there, the rollback removes it or writes what was there before the change. */
  ghost predicate Replaces(p: Process, d: Disk) {
    forall c: Choice :: c.ok ==>
      Look(Act(p, d, c).1.targets, p.snapshot.path)
      == if p.snapshot.before.Absent? then Absent
         else Written(p.snapshot.before.data, p.snapshot.before.mode, p.snapshot.owner)
  }

  /** A run that becomes undone, over all runs of all processes: its target is as it was before the change, if and only
      if nobody edited it to something else since the step in which the rollback last saw or made it so. */
  lemma UndoneIsAsBefore(targets: map<string, File>, steps: seq<Step>, step: Step, run: Run) returns (k: nat)
    requires AllWait(targets, steps, GONE)
    requires var s := RunOf(targets, steps); run in Next(s, step).disk.undone && run !in s.disk.undone
    ensures step.Does? && k < |steps| && steps[k].Does? && steps[k].who == step.who
    ensures var t := RunOf(targets, steps + [step]);
            && run in t.disk.states
            && var sn := t.disk.states[run];
            && Look(RunOf(targets, steps[..k + 1]).disk.targets, sn.path) == sn.before
            && (Look(t.disk.targets, sn.path) == sn.before <==>
                  LastEdit(steps[k + 1..], sn.path) in {None, Some(sn.before)})
  {
    hide AllWait, RunOf, Act;
    var s := RunOf(targets, steps);
    RunSnoc(targets, steps, step);
    var who := step.who;
    OnlyCompleteUndoes(s.procs[who], s.disk, step.choice);
    k := ReliedOnSince(targets, steps, who);
    SawIs(RunOf(targets, steps[..k]), steps[k], who);
    assert steps[..k + 1] == steps[..k] + [steps[k]];
    RunSnoc(targets, steps[..k], steps[k]);
  }

  /** A run becomes undone at the last step of a rollback, which changes no target. */
  lemma OnlyCompleteUndoes(p: Process, d: Disk, c: Choice)
    ensures var e := Act(p, d, c).1;
            e.undone != d.undone ==>
              && p.pc == Complete && p.role != Confirming && e.undone == d.undone + {p.run} && e.targets == d.targets
              && e.states == d.states[p.run := p.snapshot.(completed := true)]
  {
    hide Judge, AppliedFile, Written;
  }

  // Edits at the wrong moment.

  const APPLIED: File := Present("n", 0x1A4, 0)

  /** A rollback beside an apply that has ended, with the target as given. */
  function RolledTo(run: Run, target: File, pc: Pc, armed: bool, done: bool): State {
    var sn := Taking(Keys, Apply);
    State(Disk(map[run := sn.(completed := done)], map["keys" := target], None, if done then {} else {run},
               if armed then {run} else {}, {}, if done then {run} else {}),
          map[Applier(run) := Going(run, Keys, Ended), Command(0) := Rolling(run, pc)])
  }

  /** Apply has ended, with its change made. */
  function AppliedAlone(run: Run): State {
    State(Disk(map[run := Taking(Keys, Apply)], map["keys" := APPLIED], None, {}, {run}, {}, {}),
          map[Applier(run) := Going(run, Keys, Ended)])
  }

  /** Apply ends, and a rollback reads the state file. */
  lemma RollbackStarts(run: Run) returns (steps: seq<Step>)
    ensures Reaches(TargetsOf(Keys), steps, run, GONE, RolledTo(run, APPLIED, RbRead, true, false))
  {
    hide Reaches, Begins;
    var targets := TargetsOf(Keys);
    steps := Begun(run, GONE, Keys);
    steps := Drives(targets, steps, run, GONE, Keys, Lock, Apply, false);
    var s := StateAt(run, Keys, Apply, false);
    NoBegin(s, Applier(run), YES, run);
    steps := OneMove(targets, steps, run, GONE, s, Does(Applier(run), YES));
    s := AppliedState(run);
    steps := OneMove(targets, steps, run, GONE, s, StartCommand(0, RollingBack, run));
    s := Next(s, StartCommand(0, RollingBack, run));
    NoBegin(s, Command(0), YES, run);
    steps := OneMove(targets, steps, run, GONE, s, Does(Command(0), YES));
    s := Next(s, Does(Command(0), YES));
    NoBegin(s, Command(0), YES, run);
    steps := OneMove(targets, steps, run, GONE, s, Does(Command(0), YES));
    LoadsApplied(run);
  }

  lemma AppliedState(run: Run) returns (s: State)
    ensures s == Next(StateAt(run, Keys, Apply, false), Does(Applier(run), YES)) && ApplyAt(s, run, GONE)
    ensures s == AppliedAlone(run)
  {
    s := Next(StateAt(run, Keys, Apply, false), Does(Applier(run), YES));
    assert s.disk.targets == map["keys" := APPLIED];
    assert s.procs == map[Applier(run) := Going(run, Keys, Ended)];
  }

  lemma LoadsApplied(run: Run)
    ensures var s := AppliedAlone(run);
            Next(Next(Next(s, StartCommand(0, RollingBack, run)), Does(Command(0), YES)), Does(Command(0), YES))
            == RolledTo(run, APPLIED, RbRead, true, false)
  {
    var s := AppliedAlone(run);
    var t := Next(s, StartCommand(0, RollingBack, run));
    assert t.procs == map[Applier(run) := Going(run, Keys, Ended), Command(0) := IDLE(run)];
    var u := Next(t, Does(Command(0), YES));
    assert u.disk.locks == {run};
    assert u.procs == map[Applier(run) := Going(run, Keys, Ended),
      Command(0) := Process(RollingBack, run, Load, NO_SNAPSHOT)];
    var v := Next(u, Does(Command(0), YES));
    assert v.procs == RolledTo(run, APPLIED, RbRead, true, false).procs;
  }

  lemma RollsOn(run: Run, pc: Pc, next: Pc, before: File, after: File)
    requires (pc, next) in {(RbRead, RbWrite), (RbWrite, RbVerify), (RbVerify, Disarm)}
    requires match pc
             case RbRead => before == after == APPLIED
             case RbWrite => after == BeforeOf(Keys)
             case _ => before == after == BeforeOf(Keys)
    ensures Next(RolledTo(run, before, pc, true, false), Does(Command(0), YES))
              == RolledTo(run, after, next, true, false)
  {
    var s, t := RolledTo(run, before, pc, true, false), RolledTo(run, after, next, true, false);
    assert Judge(Taking(Keys, Apply), APPLIED) == Restore;
    var u := Next(s, Does(Command(0), YES));
    assert u.disk.targets == t.disk.targets;
    assert u.procs == t.procs;
  }

  lemma RolledMoves(run: Run, target: File, pc: Pc, next: Pc, armed: bool, done: bool)
    ensures RolledTo(run, target, pc, armed, done).procs[Command(0) := Rolling(run, next)]
            == RolledTo(run, target, next, armed, done).procs
  {
    hide Going, Rolling;
  }

  lemma RollsOut(run: Run, target: File)
    ensures Next(RolledTo(run, target, Disarm, true, false), Does(Command(0), YES))
              == RolledTo(run, target, Complete, false, false)
  {
    hide Going, Taking;
    assert {run} - {run} == {};
    RolledMoves(run, target, Disarm, Complete, true, false);
  }

  lemma RollsEnd(run: Run, target: File)
    ensures Next(RolledTo(run, target, Complete, false, false), Does(Command(0), YES))
              == RolledTo(run, target, Ended, false, true)
  {
    hide Going;
    assert {run} - {run} == {} && {} + {run} == {run};
    RolledMoves(run, target, Complete, Ended, false, false);
    var sn := Taking(Keys, Apply);
    assert map[run := sn][run := sn.(completed := true)] == map[run := sn.(completed := true)];
  }

  lemma EditsTo(run: Run, target: File, edited: File, pc: Pc)
    ensures Next(RolledTo(run, target, pc, true, false), Edit("keys", edited)) == RolledTo(run, edited, pc, true, false)
  {
  }

  lemma Rolls(steps: seq<Step>, run: Run, s: State, t: State) returns (more: seq<Step>)
    requires Reaches(TargetsOf(Keys), steps, run, GONE, s) && Next(s, Does(Command(0), YES)) == t
    ensures Reaches(TargetsOf(Keys), more, run, GONE, t)
  {
    hide Next, Begins, Reaches;
    NoBegin(s, Command(0), YES, run);
    more := OneMove(TargetsOf(Keys), steps, run, GONE, s, Does(Command(0), YES));
  }

  lemma AllWaited(targets: map<string, File>, steps: seq<Step>, run: Run, s: State)
    requires Reaches(targets, steps, run, GONE, s)
    ensures AllWait(targets, steps, GONE) && RunOf(targets, steps) == s
  {
    hide RunOf, Waits;
    forall r: Run
      ensures Waits(targets, steps, r, GONE)
    {
      if r != run {
        WaitsLonger(targets, steps, r, {}, GONE);
      }
    }
  }

  /** A file that is edited after the rollback has judged it and before it is replaced is lost, though every command
      waited: the rollback succeeds, and the target is as before the change. */
  lemma EditIsOverwritten(run: Run, edited: File) returns (before: seq<Step>, after: seq<Step>)
    ensures var steps := before + [Edit("keys", edited)] + after;
            && AllWait(TargetsOf(Keys), steps, GONE)
            && run in RunOf(TargetsOf(Keys), steps).disk.undone
            && Look(RunOf(TargetsOf(Keys), steps).disk.targets, "keys") == BeforeOf(Keys)
    ensures forall i :: 0 <= i < |after| ==> !after[i].Edit?
  {
    hide Next, RolledTo, Reaches, AllWait, RunOf, Begins;
    var targets, was := TargetsOf(Keys), BeforeOf(Keys);
    before := RollbackStarts(run);
    RollsOn(run, RbRead, RbWrite, APPLIED, APPLIED);
    before := Rolls(before, run, RolledTo(run, APPLIED, RbRead, true, false),
      RolledTo(run, APPLIED, RbWrite, true, false));
    EditsTo(run, APPLIED, edited, RbWrite);
    EditIsNoBegin(RolledTo(run, APPLIED, RbWrite, true, false), edited, run);
    var steps := OneMove(targets, before, run, GONE, RolledTo(run, APPLIED, RbWrite, true, false),
      Edit("keys", edited));
    RollsOn(run, RbWrite, RbVerify, edited, was);
    RollsOn(run, RbVerify, Disarm, was, was);
    RollsOut(run, was);
    RollsEnd(run, was);
    after := [Does(Command(0), YES), Does(Command(0), YES), Does(Command(0), YES), Does(Command(0), YES)];
    NoBegins(run);
    var one := OneMove(targets, steps, run, GONE, RolledTo(run, edited, RbWrite, true, false), Does(Command(0), YES));
    var two := OneMove(targets, one, run, GONE, RolledTo(run, was, RbVerify, true, false), Does(Command(0), YES));
    var three := OneMove(targets, two, run, GONE, RolledTo(run, was, Disarm, true, false), Does(Command(0), YES));
    var four := OneMove(targets, three, run, GONE, RolledTo(run, was, Complete, false, false), Does(Command(0), YES));
    assert four == before + [Edit("keys", edited)] + after;
    AllWaited(targets, four, run, RolledTo(run, was, Ended, false, true));
    RolledOut(run, was);
  }

  /** A file that is edited after the rollback has seen it as before: the run is undone, and the target is not as
      before, though every command waited. */
  lemma EditIsMissed(run: Run, edited: File) returns (steps: seq<Step>)
    ensures AllWait(TargetsOf(Keys), steps, GONE)
    ensures run in RunOf(TargetsOf(Keys), steps).disk.undone
    ensures Look(RunOf(TargetsOf(Keys), steps).disk.targets, "keys") == edited
  {
    hide Next, RolledTo, Reaches, AllWait, RunOf, Begins;
    var targets, was := TargetsOf(Keys), BeforeOf(Keys);
    steps := RollbackStarts(run);
    RollsOn(run, RbRead, RbWrite, APPLIED, APPLIED);
    steps := Rolls(steps, run, RolledTo(run, APPLIED, RbRead, true, false),
      RolledTo(run, APPLIED, RbWrite, true, false));
    RollsOn(run, RbWrite, RbVerify, APPLIED, was);
    steps := Rolls(steps, run, RolledTo(run, APPLIED, RbWrite, true, false), RolledTo(run, was, RbVerify, true, false));
    RollsOn(run, RbVerify, Disarm, was, was);
    steps := Rolls(steps, run, RolledTo(run, was, RbVerify, true, false), RolledTo(run, was, Disarm, true, false));
    EditsTo(run, was, edited, Disarm);
    EditIsNoBegin(RolledTo(run, was, Disarm, true, false), edited, run);
    steps := OneMove(targets, steps, run, GONE, RolledTo(run, was, Disarm, true, false), Edit("keys", edited));
    RollsOut(run, edited);
    RollsEnd(run, edited);
    steps := Rolls(steps, run, RolledTo(run, edited, Disarm, true, false),
      RolledTo(run, edited, Complete, false, false));
    steps := Rolls(steps, run, RolledTo(run, edited, Complete, false, false),
      RolledTo(run, edited, Ended, false, true));
    AllWaited(targets, steps, run, RolledTo(run, edited, Ended, false, true));
    RolledOut(run, edited);
  }

  lemma RolledOut(run: Run, target: File)
    ensures var s := RolledTo(run, target, Ended, false, true);
            run in s.disk.undone && Look(s.disk.targets, "keys") == target
  {
  }

  lemma EditIsNoBegin(s: State, edited: File, run: Run)
    ensures !Begins(s, Edit("keys", edited), run)
  {
  }

  lemma NoBegins(run: Run)
    ensures forall s: State :: !Begins(s, Does(Command(0), YES), run)
  {
  }
}
