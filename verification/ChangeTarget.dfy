// The file or rule set that a protected change replaces, and how it is put back.
module ChangeTarget {
  datatype Kind = Keys | Rules

  /** A target file, or a rule set, which has neither mode nor owner. */
  datatype File = Absent | Present(data: string, mode: nat, owner: nat)

  /** What a state file holds: the target before, the new content, and for rules the listing after it was applied. */
  datatype Snapshot = Snapshot(kind: Kind, path: string, before: File, owner: nat, applied: string,
                               appliedState: string, completed: bool)

  const DEFAULT_MODE: nat := 0x180 // 0600

  function ModeOf(before: File): nat {
    if before.Present? then before.mode else 0
  }

  /** What is written for a mode, where 0 stands for the default. */
  function Written(data: string, mode: nat, owner: nat): File {
    Present(data, if mode == 0 then DEFAULT_MODE else mode, owner)
  }

  function Listing(rules: string): File {
    Present(rules, 0, 0)
  }

  /** A snapshot as it is taken: a file keeps its owner, and rules are always there. */
  predicate Taken(sn: Snapshot) {
    match sn.kind
    case Keys => sn.before.Present? ==> sn.before.owner == sn.owner
    case Rules => sn.before.Present? && sn.before == Listing(sn.before.data)
  }

  /** The file that applying a change leaves. */
  function AppliedFile(sn: Snapshot): File {
    Written(sn.applied, ModeOf(sn.before), sn.owner)
  }

  datatype Verdict = Nothing | Refuse | Restore

  /** What a rollback makes of the target it finds. */
  function Judge(sn: Snapshot, current: File): Verdict {
    match sn.kind
    case Keys =>
      if sn.before.Absent? then
        if current.Absent? then Nothing
        else
          var mode := if ModeOf(sn.before) != 0 then ModeOf(sn.before) else DEFAULT_MODE;
          if current != Present(sn.applied, mode, sn.owner) then Refuse
        else Restore
      else
        if current == Present(sn.before.data, sn.before.mode, sn.owner) then Nothing
        else if current != Present(sn.applied, sn.before.mode, sn.owner) then Refuse
        else Restore
    case Rules =>
      if current == sn.before then Nothing
      else if sn.appliedState != "" && current != Listing(sn.appliedState) then Refuse
      else Restore
  }

  /** A keys file that is neither as before nor as applied was edited by someone else, and is refused. A file that had
      no permissions at all is looked for without any, though it is not written so. */
  lemma EditedIsRefused(sn: Snapshot, current: File)
    requires sn.kind == Keys && Taken(sn)
    ensures Judge(sn, current) == Nothing <==> current == sn.before
    ensures current != sn.before && current != AppliedFile(sn) && (sn.before.Absent? || sn.before.mode != 0) ==>
              Judge(sn, current) == Refuse
    ensures sn.before.Present? && sn.before.mode == 0 ==>
              current != sn.before && current != Present(sn.applied, 0, sn.owner) ==> Judge(sn, current) == Refuse
  {
  }

  /** What was applied can be put back, but for a file that had no permissions at all: the mode it gets when it is
      written is not the one that is looked for. */
  lemma AppliedIsRestored(sn: Snapshot)
    requires sn.kind == Keys && Taken(sn) && AppliedFile(sn) != sn.before
    ensures Judge(sn, AppliedFile(sn)) == (if sn.before.Absent? || sn.before.mode != 0 then Restore else Refuse)
    ensures sn.before.Present? ==>
              (Written(sn.before.data, sn.before.mode, sn.owner) == sn.before <==> sn.before.mode != 0)
  {
  }

  /** One target, with nobody else at work. Each call may fail. */
  class Target {
    var file: File

    constructor (file: File)
      ensures this.file == file
    {
      this.file := file;
    }

    /** A file is replaced whole or not at all. */
    method WriteFile(data: string, mode: nat, owner: nat) returns (ok: bool)
      modifies this
      ensures file == if ok then Written(data, mode, owner) else old(file)
    {
      var failed: bool := *;
      if failed {
        return false;
      }
      var bits := if mode == 0 then DEFAULT_MODE else mode;
      file := Present(data, bits, owner);
      return true;
    }

    method Remove() returns (ok: bool)
      modifies this
      ensures file == if ok then Absent else old(file)
    {
      var failed: bool := *;
      if !failed {
        file := Absent;
      }
      return !failed;
    }

    /** iptables-restore: the rules are listed in their own way, so what is found later is compared as it is listed. */
    method RestoreRules(rules: string) returns (ok: bool)
      modifies this
      ensures file.Present? && file == Listing(file.data)
    {
      var listed: string, failed: bool := *, *;
      file := Listing(listed);
      return !failed;
    }

    method RollbackKeys(sn: Snapshot) returns (ok: bool, failed: bool)
      requires sn.kind == Keys && Taken(sn)
      modifies this
      // Success means the target is as before; a target that someone else edited stays as it is.
      ensures ok ==> file == sn.before
      ensures Judge(sn, old(file)) == Refuse ==> !ok && file == old(file)
      ensures Judge(sn, old(file)) == Nothing ==> file == old(file)
      ensures !failed ==>
                (ok <==>
                  || Judge(sn, old(file)) == Nothing
                  || (Judge(sn, old(file)) == Restore && (sn.before.Absent? || sn.before.mode != 0)))
    {
      var unreadable: bool := *;
      if unreadable {
        return false, true;
      }
      if sn.before.Absent? {
        if file.Absent? {
          return true, false;
        }
        if file.data != sn.applied || file.mode != DEFAULT_MODE || file.owner != sn.owner {
          return false, false;
        }
        ok := Remove();
        return ok, !ok;
      }
      if file.Present? && file.data == sn.before.data && file.mode == sn.before.mode && file.owner == sn.owner {
        return true, false;
      }
      if file.Absent? || file.data != sn.applied || file.mode != sn.before.mode || file.owner != sn.owner {
        return false, false;
      }
      ok := WriteFile(sn.before.data, sn.before.mode, sn.owner);
      if !ok {
        return false, true;
      }
      unreadable := *;
      if unreadable {
        return false, true;
      }
      ok := file == Present(sn.before.data, sn.before.mode, sn.owner);
      return ok, false;
    }

    method RollbackRules(sn: Snapshot) returns (ok: bool)
      requires sn.kind == Rules && Taken(sn)
      modifies this
      ensures ok ==> file == sn.before
      ensures Judge(sn, old(file)) != Restore ==> file == old(file)
      ensures Judge(sn, old(file)) == Refuse ==> !ok
    {
      var unreadable: bool := *;
      if unreadable {
        return false;
      }
      if file == sn.before {
        return true;
      }
      if sn.appliedState != "" && file != Listing(sn.appliedState) {
        return false;
      }
      ok := RestoreRules(sn.before.data);
      unreadable := *;
      return ok && !unreadable && file == sn.before;
    }
  }
}
