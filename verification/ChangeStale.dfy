// A rollback that outlives its change: one that begins before its apply is gone can still be about to write when the
// change is over and another one is being made. From which steps of apply on commands have to wait for a rollback to
// replace only what it judged, and for a run that was rolled back to have its target as before.
module ChangeStale {
  import opened Folds
  import opened ChangeTarget
  import opened ChangeProtocol
  import opened ChangeGuard
  import opened ChangeTooEarly
  import opened ChangeRollback

  ghost predicate EditFree(steps: seq<Step>) {
    forall i :: 0 <= i < |steps| ==> !steps[i].Edit?
  }

  /** Commands waited, nobody edited anything, and this is where it led. */
  ghost predicate Leads(targets: map<string, File>, steps: seq<Step>, pcs: set<Pc>, s: State) {
    RunOf(targets, steps) == s && AllWait(targets, steps, pcs) && EditFree(steps)
  }

  lemma MovesOn(targets: map<string, File>, steps: seq<Step>, pcs: set<Pc>, s: State, step: Step)
      returns (more: seq<Step>)
    requires Leads(targets, steps, pcs, s) && !step.Edit?
    requires step.StartCommand? || step.Fire? ==> ApplyAt(s, step.run, pcs)
    ensures more == steps + [step] && Leads(targets, more, pcs, Next(s, step))
  {
    hide Next, ApplyAt, RunOf, Waits, Enabled;
    more := steps + [step];
    RunSnoc(targets, steps, step);
    forall run: Run
      ensures Waits(targets, more, run, pcs)
    {
      WaitsSnoc(targets, steps, step, run, pcs);
    }
  }

  // Apply of rules, alone or beside a command, from its start to the end of its rollback.

  predicate Starting(pc: Pc) {
    pc in {Lock, Check, Prepare, WriteState, Arm, See, Apply}
  }

  /** The state file of such a change. */
  predicate Filed(sn: Snapshot) {
    sn.(appliedState := "") == Taking(Rules, Apply) && sn.appliedState in {"", "l"}
  }

  ghost predicate NonePending(states: map<Run, Snapshot>) {
    forall r: Run :: !Pending(states, r)
  }

  /** Apply on its way to the change. */
  ghost predicate Climbs(s: State, run: Run, pc: Pc) {
    && Applier(run) in s.procs && s.procs[Applier(run)] == Going(run, Rules, pc)
    && Look(s.disk.targets, "rules") == Listing("b")
    && s.disk.applyLock == (if pc == Lock then None else Some(run))
    && (if pc in {Lock, Check, Prepare, WriteState} then NonePending(s.disk.states)
        else OnlyPending(s.disk.states, run) && run in s.disk.states && Filed(s.disk.states[run]))
  }

  /** Apply on its way back. */
  ghost predicate Turns(s: State, run: Run, pc: Pc) {
    && Applier(run) in s.procs && s.procs[Applier(run)] == Process(Applying, run, pc, Failing(pc))
    && Look(s.disk.targets, "rules") == Listing(if pc in {RbVerify, Disarm, Complete} then "b" else "l")
    && s.disk.applyLock == Some(run)
    && OnlyPending(s.disk.states, run) && run in s.disk.states && Filed(s.disk.states[run])
  }

  ghost predicate At(s: State, run: Run, pc: Pc) {
    if Starting(pc) then Climbs(s, run, pc) else Turns(s, run, pc)
  }

  predicate OnPath(pc: Pc, saving: bool) {
    Starting(pc) || OnTheWay(pc, saving)
  }

  function Reply(pc: Pc, saving: bool): Choice {
    if pc == Apply then LISTED else if Starting(pc) then YES else Answer(pc, saving)
  }

  function Onward(pc: Pc, saving: bool): Pc {
    if pc == Apply then ReadBack else if Starting(pc) then After(pc) else Then(pc, saving)
  }

  function Ahead(pc: Pc): nat {
    if Starting(pc) then 9 + ToApply(pc) else ToComplete(pc)
  }

  /** Only apply has moved. */
  ghost predicate Beside(s: State, t: State, run: Run) {
    && (forall who :: who != Applier(run) ==> (who in t.procs <==> who in s.procs))
    && (forall who :: who != Applier(run) && who in s.procs ==> t.procs[who] == s.procs[who])
    && t.disk.locks == s.disk.locks && t.disk.undone == s.disk.undone
  }

  lemma AtMoves(s: State, run: Run, pc: Pc, saving: bool)
    requires At(s, run, pc) && OnPath(pc, saving) && pc != Complete
    ensures var t := Next(s, Does(Applier(run), Reply(pc, saving))); At(t, run, Onward(pc, saving)) && Beside(s, t, run)
  {
    hide Climbs, Turns, Next;
    if pc in {Lock, Check, Prepare} {
      ClimbsUp(s, run, pc);
    } else if pc == Apply {
      TurnsBack(s, run);
    } else if Starting(pc) {
      ClimbsOver(s, run, pc);
    } else {
      TurnsOn(s, run, pc, saving);
    }
  }

  lemma ClimbsUp(s: State, run: Run, pc: Pc)
    requires Climbs(s, run, pc) && pc in {Lock, Check, Prepare}
    ensures var t := Next(s, Does(Applier(run), YES)); Climbs(t, run, After(pc)) && Beside(s, t, run)
  {
    hide Act, Going;
    LooksUp(run, pc, s.disk);
    assert Going(run, Rules, pc).pc == pc by {
      GoingAt(run, pc);
    }
  }

  lemma GoingAt(run: Run, pc: Pc)
    ensures Going(run, Rules, pc).pc == pc
  {
  }

  lemma ClimbsOver(s: State, run: Run, pc: Pc)
    requires Climbs(s, run, pc) && pc in {WriteState, Arm, See}
    ensures var t := Next(s, Does(Applier(run), YES)); Climbs(t, run, After(pc)) && Beside(s, t, run)
  {
    hide Act, Going, Filed;
    SetsUp(run, pc, s.disk);
    GoingAt(run, pc);
  }

  lemma TurnsBack(s: State, run: Run)
    requires Climbs(s, run, Apply)
    ensures var t := Next(s, Does(Applier(run), LISTED)); Turns(t, run, ReadBack) && Beside(s, t, run)
  {
    hide Act, Going, Filed, Failing;
    SetsUp(run, Apply, s.disk);
    GoingAt(run, Apply);
  }

  lemma TurnsOn(s: State, run: Run, pc: Pc, saving: bool)
    requires Turns(s, run, pc) && OnTheWay(pc, saving) && pc != Complete
    ensures var t := Next(s, Does(Applier(run), Answer(pc, saving)));
            Turns(t, run, Then(pc, saving)) && Beside(s, t, run)
  {
    hide Act, Filed, Failing, Answer, Then;
    FailingActs(run, pc, saving, s.disk);
    FiledStays(run, s.disk, Act(s.procs[Applier(run)], s.disk, Answer(pc, saving)).1);
  }

  lemma LooksUp(run: Run, pc: Pc, d: Disk)
    requires pc in {Lock, Check, Prepare} && Look(d.targets, "rules") == Listing("b") && NonePending(d.states)
    requires d.applyLock == if pc == Lock then None else Some(run)
    ensures Act(Going(run, Rules, pc), d, YES) == (Going(run, Rules, After(pc)), d.(applyLock := Some(run)))
  {
  }

  lemma SetsUp(run: Run, pc: Pc, d: Disk)
    requires pc in {WriteState, Arm, See, Apply} && Look(d.targets, "rules") == Listing("b") && d.applyLock == Some(run)
    requires if pc == WriteState then NonePending(d.states)
               else OnlyPending(d.states, run) && run in d.states && Filed(d.states[run])
    ensures var (q, e) := Act(Going(run, Rules, pc), d, if pc == Apply then LISTED else YES);
            && q == (if pc == Apply then Process(Applying, run, ReadBack, Failing(ReadBack))
                 else Going(run, Rules, After(pc)))
            && Look(e.targets, "rules") == Listing(if pc == Apply then "l" else "b")
            && e.applyLock == Some(run) && e.locks == d.locks && e.undone == d.undone
            && OnlyPending(e.states, run) && run in e.states && Filed(e.states[run])
  {
    OnlyAfterWrite(d.states, run, Taking(Rules, WriteState));
  }

  lemma FiledStays(run: Run, d: Disk, e: Disk)
    requires SameBut(d, e, run) && OnlyPending(d.states, run) && run in d.states && Filed(d.states[run])
    ensures OnlyPending(e.states, run) && run in e.states && Filed(e.states[run])
  {
    OnlyAfterWrite(d.states, run, Failing(SaveNote));
  }

  lemma {:induction false} GoesTo(targets: map<string, File>, steps: seq<Step>, pcs: set<Pc>, s: State, run: Run,
                                  from: Pc, to: Pc,
                                  saving: bool) returns (more: seq<Step>, t: State)
    requires Leads(targets, steps, pcs, s) && At(s, run, from)
    requires OnPath(from, saving) && OnPath(to, saving) && Ahead(from) >= Ahead(to)
    ensures Leads(targets, more, pcs, t) && At(t, run, to) && Beside(s, t, run)
    decreases Ahead(from)
  {
    hide Leads, At, Next, Beside, Reply, OnPath, Onward, Ahead, Starting;
    if from == to {
      BesideItself(s, run);
      return steps, s;
    }
    GoesOnward(from, to, saving);
    AtMoves(s, run, from, saving);
    var u := Next(s, Does(Applier(run), Reply(from, saving)));
    more := MovesOn(targets, steps, pcs, s, Does(Applier(run), Reply(from, saving)));
    more, t := GoesTo(targets, more, pcs, u, run, Onward(from, saving), to, saving);
    BesideThrough(s, u, t, run);
  }

  lemma GoesOnward(from: Pc, to: Pc, saving: bool)
    requires OnPath(from, saving) && OnPath(to, saving) && Ahead(from) >= Ahead(to) && from != to
    ensures from != Complete && OnPath(Onward(from, saving), saving)
    ensures Ahead(from) > Ahead(Onward(from, saving)) >= Ahead(to)
  {
    hide OnTheWay, ToComplete, Then, ToApply, After;
    if Starting(from) {
      UpOnward(from);
      if Starting(to) {
        UpApart(from, to);
      } else {
        BackBound(to, saving);
      }
    } else {
      BackBound(from, saving);
      if !Starting(to) {
        BackOnward(from, to, saving);
      }
    }
    BackBound(ReadBack, saving);
  }

  lemma UpOnward(pc: Pc)
    requires Starting(pc)
    ensures pc != Apply ==> Starting(After(pc)) && ToApply(After(pc)) == ToApply(pc) - 1
    ensures pc == Apply ==> ToApply(pc) == 0
  {
  }

  lemma UpApart(from: Pc, to: Pc)
    requires Starting(from) && Starting(to) && from != to
    ensures ToApply(from) != ToApply(to)
  {
  }

  lemma BackBound(pc: Pc, saving: bool)
    ensures OnTheWay(pc, saving) ==> !Starting(pc) && ToComplete(pc) <= 8
    ensures pc == ReadBack ==> OnTheWay(pc, saving) && ToComplete(pc) == 8
  {
  }

  lemma BackOnward(from: Pc, to: Pc, saving: bool)
    requires OnTheWay(from, saving) && OnTheWay(to, saving) && ToComplete(from) >= ToComplete(to) && from != to
    ensures from != Complete && OnTheWay(Then(from, saving), saving) && !Starting(Then(from, saving))
    ensures ToComplete(from) > ToComplete(Then(from, saving)) >= ToComplete(to)
  {
  }

  lemma BesideItself(s: State, run: Run)
    ensures Beside(s, s, run)
  {
  }

  lemma BesideThrough(s: State, u: State, t: State, run: Run)
    requires Beside(s, u, run) && Beside(u, t, run)
    ensures Beside(s, t, run)
  {
  }

  // A rollback that is left over.

  const X: Run := "x"
  const Y: Run := "y"
  const K: Who := Command(0)
  const GARBLED: Choice := Choice(true, true, "g", 0)

  /** A rollback of the first change is at a step. */
  ghost predicate KAt(s: State, pc: Pc) {
    && K in s.procs && s.procs[K].role == RollingBack && s.procs[K].run == X && s.procs[K].pc == pc
    && Filed(s.procs[K].snapshot)
    && Y !in s.disk.undone
  }

  /** No change is pending, the rules are as before, and a rollback of the change that is over has not looked at them
      yet. */
  ghost predicate LeftOver(s: State) {
    && KAt(s, RbRead)
    && s.disk.applyLock == None && NonePending(s.disk.states) && Look(s.disk.targets, "rules") == Listing("b")
    && Applier(Y) !in s.procs
  }

  /** There is but one apply, and no command has done anything yet. */
  ghost predicate Fresh(s: State) {
    s.disk.locks == {} && Applier(Y) !in s.procs && Y !in s.disk.undone
  }

  lemma FreshStays(s: State, t: State)
    requires Fresh(s) && Beside(s, t, X)
    ensures Fresh(t) && (K in t.procs <==> K in s.procs) && (K in s.procs ==> t.procs[K] == s.procs[K])
  {
  }

  lemma ApplyBegins(pcs: set<Pc>) returns (steps: seq<Step>, s: State)
    ensures Leads(TargetsOf(Rules), steps, pcs, s) && At(s, X, Lock) && Fresh(s) && K !in s.procs
  {
    hide TargetsOf, Next;
    var targets := TargetsOf(Rules);
    assert Leads(targets, [], pcs, Start(targets));
    steps := MovesOn(targets, [], pcs, Start(targets), StartApply(X, Rules, "rules", "n"));
    s := Next(Start(targets), StartApply(X, Rules, "rules", "n"));
    FirstAt();
  }

  lemma FirstAt()
    ensures var s := Next(Start(TargetsOf(Rules)), StartApply(X, Rules, "rules", "n"));
            At(s, X, Lock) && Fresh(s) && K !in s.procs
  {
  }

  /** The rollback begins. */
  lemma RollbackBegun(targets: map<string, File>, steps: seq<Step>, pcs: set<Pc>, s: State)
      returns (more: seq<Step>, t: State)
    requires Leads(targets, steps, pcs, s) && Fresh(s) && K !in s.procs && ApplyAt(s, X, pcs)
    ensures Leads(targets, more, pcs, t) && Fresh(t) && t.disk == s.disk && t.procs == s.procs[K := IDLE(X)]
  {
    hide Leads;
    more := MovesOn(targets, steps, pcs, s, StartCommand(0, RollingBack, X));
    t := Next(s, StartCommand(0, RollingBack, X));
  }

  /** And reads the state file, while the change is pending. */
  lemma RollbackLoaded(targets: map<string, File>, steps: seq<Step>, pcs: set<Pc>, s: State)
      returns (more: seq<Step>, t: State)
    requires Leads(targets, steps, pcs, s) && Fresh(s) && K in s.procs && s.procs[K] == IDLE(X)
    requires Pending(s.disk.states, X)
    ensures Leads(targets, more, pcs, t) && t.disk == s.disk.(locks := {X})
    ensures t.procs == s.procs[K := Process(RollingBack, X, RbRead, s.disk.states[X])]
  {
    hide Leads;
    more := MovesOn(targets, steps, pcs, s, Does(K, YES));
    t := Next(s, Does(K, YES));
    assert t.disk.locks == {X};
    more := MovesOn(targets, more, pcs, t, Does(K, YES));
    t := Next(t, Does(K, YES));
  }

  /** The rollback has read the state file and not looked at the rules. */
  ghost predicate Loaded(s: State) {
    KAt(s, RbRead) && Applier(Y) !in s.procs
  }

  /** Apply is over, and the rollback is left. */
  lemma ApplyLeaves(s: State, pc: Pc)
    requires Loaded(s) && (if pc == Complete then Turns(s, X, Complete) else pc == GiveUp && Climbs(s, X, GiveUp))
    ensures LeftOver(Next(s, Does(Applier(X), YES)))
  {
    hide Filed;
    var t := Next(s, Does(Applier(X), YES));
    assert X[0] != Y[0];
    assert t.disk.states.Keys == s.disk.states.Keys && t.disk.states[X].completed;
    forall r: Run
      ensures !Pending(t.disk.states, r)
    {
      assert Pending(s.disk.states, r) ==> r == X;
    }
  }

  lemma GivesUp(s: State, pc: Pc)
    requires pc in {Arm, Abandon} && Climbs(s, X, pc)
    ensures var t := Next(s, Does(Applier(X), NO));
            Climbs(t, X, if pc == Arm then Abandon else GiveUp) && Beside(s, t, X)
  {
    hide Filed;
  }

  /** A rollback is left over that began when apply was at pc. */
  lemma LeavesOver(pc: Pc) returns (steps: seq<Step>, s: State)
    requires pc !in GONE + {Load}
    ensures Leads(TargetsOf(Rules), steps, {pc}, s) && LeftOver(s)
  {
    hide Leads, LeftOver;
    if pc in {Abandon, GiveUp} {
      steps, s := LeavesGivenUp(pc);
    } else {
      steps, s := LeavesFailed(pc);
    }
  }

  lemma LeavesFailed(pc: Pc) returns (steps: seq<Step>, s: State)
    requires pc !in GONE + {Load, Abandon, GiveUp}
    ensures Leads(TargetsOf(Rules), steps, {pc}, s) && LeftOver(s)
  {
    hide Leads, LeftOver, At, TargetsOf, Next, Beside, Fresh, Filed, OnPath, Ahead, Loaded, Turns, Pending;
    var targets, saving := TargetsOf(Rules), pc == SaveApplied;
    OnItsPath(pc);
    steps, s := BeginsBeside(pc);
    var was := s;
    steps, s := GoesTo(targets, steps, {pc}, s, X, pc, Complete, saving);
    FreshStays(was, s);
    AtComplete(s, X);
    was := s;
    steps, s := RollbackLoaded(targets, steps, {pc}, s);
    TurnsBeside(was, s, X, Complete);
    LoadedIs(s, was);
    steps := MovesOn(targets, steps, {pc}, s, Does(Applier(X), YES));
    ApplyLeaves(s, Complete);
    s := Next(s, Does(Applier(X), YES));
  }

  lemma OnItsPath(pc: Pc)
    requires pc !in GONE + {Load, Abandon, GiveUp}
    ensures var saving := pc == SaveApplied;
            OnPath(Lock, saving) && OnPath(pc, saving) && OnPath(Complete, saving)
              && Ahead(Lock) >= Ahead(pc) >= Ahead(Complete)
  {
  }

  /** A rollback begins when apply is at pc. */
  lemma BeginsBeside(pc: Pc) returns (steps: seq<Step>, s: State)
    requires pc !in GONE + {Load, Abandon, GiveUp}
    ensures Leads(TargetsOf(Rules), steps, {pc}, s) && At(s, X, pc) && Fresh(s) && K in s.procs && s.procs[K] == IDLE(X)
  {
    hide Leads, At, TargetsOf, Next, Beside, Fresh, OnPath, Ahead;
    var targets := TargetsOf(Rules);
    OnItsPath(pc);
    steps, s := ApplyBegins({pc});
    var was := s;
    steps, s := GoesTo(targets, steps, {pc}, s, X, Lock, pc, pc == SaveApplied);
    FreshStays(was, s);
    AtIs(s, X, pc);
    was := s;
    steps, s := RollbackBegun(targets, steps, {pc}, s);
    AtBeside(was, s, X, pc);
  }

  lemma LoadedIs(s: State, was: State)
    requires Fresh(was) && Pending(was.disk.states, X) && Filed(was.disk.states[X]) && s.disk == was.disk.(locks := {X})
    requires s.procs == was.procs[K := Process(RollingBack, X, RbRead, was.disk.states[X])]
    ensures Loaded(s)
  {
    hide Filed;
  }

  lemma LeavesGivenUp(pc: Pc) returns (steps: seq<Step>, s: State)
    requires pc in {Abandon, GiveUp}
    ensures Leads(TargetsOf(Rules), steps, {pc}, s) && LeftOver(s)
  {
    hide Leads, LeftOver, TargetsOf, Next, Beside, Climbs;
    var targets := TargetsOf(Rules);
    steps, s := ApplyBegins({pc});
    var was := s;
    steps, s := GoesTo(targets, steps, {pc}, s, X, Lock, Arm, false);
    FreshStays(was, s);
    steps, s := MovesGivingUp(targets, steps, {pc}, s, Arm);
    if pc == GiveUp {
      steps, s := MovesGivingUp(targets, steps, {pc}, s, Abandon);
    }
    ClimbsIs(s, X, pc);
    was := s;
    steps, s := RollbackBegun(targets, steps, {pc}, s);
    ClimbsBeside(was, s, X, pc);
    was := s;
    steps, s := RollbackLoaded(targets, steps, {pc}, s);
    ClimbsBeside(was, s, X, pc);
    if pc == Abandon {
      was := s;
      steps := MovesOn(targets, steps, {pc}, s, Does(Applier(X), NO));
      GivesUp(s, Abandon);
      s := Next(s, Does(Applier(X), NO));
      LoadedStays(was, s);
    }
    steps := MovesOn(targets, steps, {pc}, s, Does(Applier(X), YES));
    ApplyLeaves(s, GiveUp);
    s := Next(s, Does(Applier(X), YES));
  }

  lemma MovesGivingUp(targets: map<string, File>, steps: seq<Step>, pcs: set<Pc>, s: State, pc: Pc)
    returns (more: seq<Step>, t: State)
    requires Leads(targets, steps, pcs, s) && pc in {Arm, Abandon} && Climbs(s, X, pc) && Fresh(s) && K !in s.procs
    ensures Leads(targets, more, pcs, t) && Climbs(t, X, if pc == Arm then Abandon else GiveUp) && Fresh(t)
    ensures K !in t.procs
  {
    hide Leads, Climbs, Next, Beside, Fresh;
    more := MovesOn(targets, steps, pcs, s, Does(Applier(X), NO));
    GivesUp(s, pc);
    t := Next(s, Does(Applier(X), NO));
    FreshStays(s, t);
  }

  lemma AtIs(s: State, run: Run, pc: Pc)
    requires At(s, run, pc)
    ensures ApplyAt(s, run, {pc})
  {
  }

  lemma AtBeside(s: State, t: State, run: Run, pc: Pc)
    requires At(s, run, pc) && t.disk == s.disk && t.procs == s.procs[K := IDLE(X)]
    ensures At(t, run, pc)
  {
  }

  lemma AtComplete(s: State, run: Run)
    requires At(s, run, Complete)
    ensures Turns(s, run, Complete) && Pending(s.disk.states, run) && Filed(s.disk.states[run])
  {
  }

  lemma TurnsBeside(s: State, t: State, run: Run, pc: Pc)
    requires Turns(s, run, pc) && Applier(run) in t.procs && t.procs[Applier(run)] == s.procs[Applier(run)]
    requires t.disk == s.disk.(locks := t.disk.locks)
    ensures Turns(t, run, pc)
  {
  }

  lemma ClimbsIs(s: State, run: Run, pc: Pc)
    requires Climbs(s, run, pc) && pc in {Abandon, GiveUp}
    ensures ApplyAt(s, run, {pc}) && Pending(s.disk.states, run) && Filed(s.disk.states[run])
  {
  }

  lemma ClimbsBeside(s: State, t: State, run: Run, pc: Pc)
    requires Climbs(s, run, pc) && Applier(run) in t.procs && t.procs[Applier(run)] == s.procs[Applier(run)]
    requires t.disk == s.disk.(locks := t.disk.locks)
    ensures Climbs(t, run, pc)
  {
  }

  lemma LoadedStays(s: State, t: State)
    requires Loaded(s) && Beside(s, t, X)
    ensures Loaded(t)
  {
  }

  // What it does to the next change.

  /** The rollback that is left over is about to write, and another change has just been taken back. */
  ghost predicate AboutToSpoil(s: State) {
    KAt(s, RbWrite) && Turns(s, Y, Disarm)
  }

  lemma NextChange(pc: Pc) returns (steps: seq<Step>, s: State)
    requires pc !in GONE + {Load}
    ensures Leads(TargetsOf(Rules), steps, {pc}, s) && AboutToSpoil(s)
  {
    hide Leads, LeftOver, At, TargetsOf, Next, Beside, AboutToSpoil;
    var targets := TargetsOf(Rules);
    steps, s := NextComesToRestore(pc);
    steps := MovesOn(targets, steps, {pc}, s, Does(K, YES));
    LooksAtOther(s);
    s := Next(s, Does(K, YES));
    var was := s;
    steps, s := GoesTo(targets, steps, {pc}, s, Y, RbRead, Disarm, false);
    SpoilsNext(was, s);
  }

  /** The next change comes to read the file it is going to put back, beside the command that was left over. */
  lemma NextComesToRestore(pc: Pc) returns (steps: seq<Step>, s: State)
    requires pc !in GONE + {Load}
    ensures Leads(TargetsOf(Rules), steps, {pc}, s) && At(s, Y, RbRead) && KAt(s, RbRead)
  {
    hide Leads, LeftOver, At, TargetsOf, Next, Beside;
    var targets := TargetsOf(Rules);
    steps, s := LeavesOver(pc);
    steps := MovesOn(targets, steps, {pc}, s, StartApply(Y, Rules, "rules", "n"));
    NextBegins(s);
    s := Next(s, StartApply(Y, Rules, "rules", "n"));
    var was := s;
    steps, s := GoesTo(targets, steps, {pc}, s, Y, Lock, RbRead, false);
    KeptBeside(was, s);
  }

  lemma NextBegins(s: State)
    requires LeftOver(s)
    ensures var t := Next(s, StartApply(Y, Rules, "rules", "n")); At(t, Y, Lock) && KAt(t, RbRead)
  {
  }

  lemma KeptBeside(s: State, t: State)
    requires Beside(s, t, Y)
    ensures forall pc :: KAt(s, pc) ==> KAt(t, pc)
  {
  }

  /** Another change with the same listing looks to it like its own. */
  lemma LooksAtOther(s: State)
    requires At(s, Y, RbRead) && KAt(s, RbRead)
    ensures var t := Next(s, Does(K, YES)); At(t, Y, RbRead) && KAt(t, RbWrite)
  {
    assert Listing("l") != Listing("b");
    assert Judge(s.procs[K].snapshot, Listing("l")) == Restore;
  }

  lemma SpoilsNext(s: State, t: State)
    requires KAt(s, RbWrite) && Beside(s, t, Y) && At(t, Y, Disarm)
    ensures AboutToSpoil(t)
  {
  }

  /** What it is about to replace is no longer what it judged. */
  ghost predicate Replaceable(s: State, who: Who) {
    who in s.procs && s.procs[who].pc == RbWrite ==>
      Judge(s.procs[who].snapshot, Look(s.disk.targets, s.procs[who].snapshot.path)) == Restore
  }

  lemma NotReplaceable(s: State)
    requires AboutToSpoil(s)
    ensures !Replaceable(s, K)
  {
  }

  /** The step makes a run undone whose target is not as it was before. */
  ghost predicate Misses(s: State, step: Step, run: Run) {
    var t := Next(s, step);
    && run in t.disk.undone && run !in s.disk.undone
    && !(run in t.disk.states && Look(t.disk.targets, t.disk.states[run].path) == t.disk.states[run].before)
  }

  lemma Spoils(s: State)
    requires AboutToSpoil(s)
    ensures Misses(Next(Next(s, Does(K, GARBLED)), Does(Applier(Y), YES)), Does(Applier(Y), YES), Y)
  {
    hide AboutToSpoil, Next, Misses;
    Garbles(s);
    var t := Next(s, Does(K, GARBLED));
    Disarms(t);
    CompletesSpoilt(Next(t, Does(Applier(Y), YES)));
  }

  /** Apply of the next change says that it is back, and the rules are not. */
  ghost predicate Spoilt(s: State, pc: Pc) {
    && Applier(Y) in s.procs && s.procs[Applier(Y)] == Process(Applying, Y, pc, Failing(Disarm)) && Y !in s.disk.undone
    && Look(s.disk.targets, "rules") == Listing("g")
  }

  lemma Garbles(s: State)
    requires AboutToSpoil(s)
    ensures Spoilt(Next(s, Does(K, GARBLED)), Disarm)
  {
    hide Failing;
  }

  lemma Disarms(s: State)
    requires Spoilt(s, Disarm)
    ensures Spoilt(Next(s, Does(Applier(Y), YES)), Complete)
  {
    hide Failing;
  }

  lemma CompletesSpoilt(s: State)
    requires Spoilt(s, Complete)
    ensures Misses(s, Does(Applier(Y), YES), Y)
  {
    assert Listing("g").data != Listing("b").data;
  }

  /** With commands that may begin when apply is at pc, and nobody else editing, a run that was rolled back can have a
      target that is not as before. */
  lemma StaleSpoils(pc: Pc) returns (steps: seq<Step>, step: Step)
    requires pc !in GONE + {Load}
    ensures AllWait(TargetsOf(Rules), steps, {pc}) && EditFree(steps) && Misses(RunOf(TargetsOf(Rules), steps), step, Y)
  {
    hide Next, AboutToSpoil, TargetsOf, RunOf, AllWait, EditFree, Misses;
    var s;
    steps, s := NextChange(pc);
    Spoils(s);
    steps := MovesOn(TargetsOf(Rules), steps, {pc}, s, Does(K, GARBLED));
    s := Next(s, Does(K, GARBLED));
    steps := MovesOn(TargetsOf(Rules), steps, {pc}, s, Does(Applier(Y), YES));
    step := Does(Applier(Y), YES);
  }

  // Exactly how long commands have to wait for this.

  lemma AllWaitMore(targets: map<string, File>, steps: seq<Step>, pcs: set<Pc>, more: set<Pc>)
    requires AllWait(targets, steps, pcs) && pcs <= more + {Load}
    ensures AllWait(targets, steps, more)
  {
    hide Waits;
    forall run: Run
      ensures Waits(targets, steps, run, more)
    {
      NeverAtLoad(targets, steps, run, pcs, more);
    }
  }

  lemma {:induction false} NoEditNone(steps: seq<Step>, path: string)
    requires EditFree(steps)
    ensures LastEdit(steps, path) == None
  {
    if steps != [] {
      NoEditNone(steps[..|steps| - 1], path);
    }
  }

  /** Nobody else editing, every run that becomes undone has its target as before, in every interleaving, if and only if
      commands begin only when the apply of their run is gone (apply is never at Load). */
  lemma UndoneExactly(pcs: set<Pc>)
    ensures (forall targets, steps, step, run ::
               AllWait(targets, steps, pcs) && EditFree(steps) ==> !Misses(RunOf(targets, steps), step, run))
            <==> pcs <= GONE + {Load}
  {
    hide AllWait, EditFree, Misses, RunOf;
    if pcs <= GONE + {Load} {
      forall targets, steps, step, run | AllWait(targets, steps, pcs) && EditFree(steps)
        ensures !Misses(RunOf(targets, steps), step, run)
      {
        AllWaitMore(targets, steps, pcs, GONE);
        UndoneUnedited(targets, steps, step, run);
      }
    } else {
      var pc :| pc in pcs && pc !in GONE + {Load};
      var steps, step := StaleSpoils(pc);
      AllWaitMore(TargetsOf(Rules), steps, {pc}, pcs);
    }
  }

  lemma UndoneUnedited(targets: map<string, File>, steps: seq<Step>, step: Step, run: Run)
    requires AllWait(targets, steps, GONE) && EditFree(steps)
    ensures !Misses(RunOf(targets, steps), step, run)
  {
    hide AllWait, RunOf, Next;
    var s := RunOf(targets, steps);
    if run in Next(s, step).disk.undone && run !in s.disk.undone {
      var k := UndoneIsAsBefore(targets, steps, step, run);
      RunSnoc(targets, steps, step);
      NoEditNone(steps[k + 1..], Next(s, step).disk.states[run].path);
    }
  }

  /** Nobody else editing, every rollback replaces only a target that it would still replace if it looked again, in
      every interleaving, under the same condition. */
  lemma ReplacedExactly(pcs: set<Pc>)
    ensures (forall targets, steps, who ::
               AllWait(targets, steps, pcs) && EditFree(steps) ==> Replaceable(RunOf(targets, steps), who))
            <==> pcs <= GONE + {Load}
  {
    hide AllWait, EditFree, Replaceable, RunOf;
    if pcs <= GONE + {Load} {
      forall targets, steps, who | AllWait(targets, steps, pcs) && EditFree(steps)
        ensures Replaceable(RunOf(targets, steps), who)
      {
        AllWaitMore(targets, steps, pcs, GONE);
        ReplacedUnedited(targets, steps, who);
      }
    } else {
      var pc :| pc in pcs && pc !in GONE + {Load};
      var steps, s := NextChange(pc);
      NotReplaceable(s);
      AllWaitMore(TargetsOf(Rules), steps, {pc}, pcs);
      assert !Replaceable(RunOf(TargetsOf(Rules), steps), K);
    }
  }

  lemma ReplacedUnedited(targets: map<string, File>, steps: seq<Step>, who: Who)
    requires AllWait(targets, steps, GONE) && EditFree(steps)
    ensures Replaceable(RunOf(targets, steps), who)
  {
    hide AllWait, RunOf, Judge;
    var s := RunOf(targets, steps);
    if who in s.procs && s.procs[who].pc == RbWrite {
      var k := WhatIsReplaced(targets, steps, who);
      NoEditNone(steps[k + 1..], s.procs[who].snapshot.path);
    }
  }
}
