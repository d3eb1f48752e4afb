// compress --rm: what is deleted, and when, while others create, replace, write and unlink files at the same time.
module CodecRemove {
  import opened Folds

  type Inode = nat
  type Bytes = string

  datatype Path = Path(dir: string, base: string)

  datatype Error = NotRegular | Exists | Changed | InUse | NotLinked | Io

  /** What edc did to the file system, in order; what others did in between is not recorded. */
  datatype Op =
    | Synced(inode: Inode, bytes: Bytes)
    | Linked(inode: Inode, name: Path)
    | DirSynced(dir: string)
    | Moved(inode: Inode, name: Path, to: Path, replaced: Option<Inode>)
    | Compared(inode: Inode, bytes: Bytes)
    | Unlinked(inode: Inode, name: Path)

  /** Where an input is, what it was converted to, and where it is held while it is checked. */
  datatype Job = Job(path: Path, target: Path, held: Path, input: Inode, read: Bytes, out: Inode, written: Bytes)

  /** The output was on disk, under its name, and so was the name. */
  ghost predicate Durable(trace: seq<Op>, job: Job) {
    exists a: nat, b: nat, c: nat :: DurableAt(trace, job, a, b, c)
  }

  ghost predicate DurableAt(trace: seq<Op>, job: Job, a: nat, b: nat, c: nat) {
    && a < b < c < |trace|
    && trace[a] == Synced(job.out, job.written)
    && trace[b] == Linked(job.out, job.target)
    && trace[c] == DirSynced(job.target.dir)
  }

  /** An inode was put back under the name of the input. */
  ghost predicate PutBack(trace: seq<Op>, job: Job, inode: Inode) {
    Linked(inode, job.path) in trace
  }

  /** Taking an inode from the hold is allowed once it is back under its name; only the input itself may go for good,
      read again and found to be what was converted. */
  ghost predicate MayDrop(trace: seq<Op>, job: Job, inode: Inode) {
    || PutBack(trace, job, inode)
    || (inode == job.input && Compared(job.input, job.read) in trace)
  }

  ghost predicate CarefulAt(trace: seq<Op>, job: Job, k: nat)
    requires k < |trace|
  {
    match trace[k]
    case Moved(_, name, to, replaced) => name == job.path && to == job.held && replaced == None
      && Durable(trace[..k], job)
    case Unlinked(inode, name) => name == job.held ==> MayDrop(trace[..k], job, inode) && Durable(trace[..k], job)
    case _ => true
  }

  /** At every moment of the run: nothing is moved before the output is durable, no file is replaced, and nothing but
      the converted input is deleted. */
  ghost predicate Careful(trace: seq<Op>, job: Job) {
    forall k: nat :: k < |trace| ==> CarefulAt(trace, job, k)
  }

  lemma CarefulSnoc(trace: seq<Op>, op: Op, job: Job)
    requires Careful(trace, job)
    requires op.Moved? ==> op.name == job.path && op.to == job.held && op.replaced == None && Durable(trace, job)
    requires op.Unlinked? && op.name == job.held ==> MayDrop(trace, job, op.inode) && Durable(trace, job)
    ensures Careful(trace + [op], job)
  {
    var more := trace + [op];
    forall k: nat | k < |more|
      ensures CarefulAt(more, job, k)
    {
      if k < |trace| {
        assert CarefulAt(trace, job, k);
        assert more[..k] == trace[..k];
      } else {
        assert more[..k] == trace;
      }
    }
  }

  /** Before the hold exists the run only syncs, links and removes its own temporary file. */
  ghost predicate Harmless(trace: seq<Op>, temp: Path) {
    forall k :: 0 <= k < |trace| ==>
      && !trace[k].Moved?
      && (trace[k].Unlinked? ==> trace[k].name == temp)
  }

  lemma HarmlessIsCareful(trace: seq<Op>, temp: Path, job: Job)
    requires Harmless(trace, temp) && job.held != temp
    ensures Careful(trace, job)
  {
  }

  /** A stop at any moment leaves the data: every inode taken from the hold was put back, or is the input, whose
      content was found to be what the durable output was made from. */
  lemma StopAnywhere(trace: seq<Op>, job: Job, n: nat, k: nat)
    requires Careful(trace, job) && n <= |trace| && k < n
    requires trace[k].Unlinked? && trace[k].name == job.held
    ensures Durable(trace[..n], job)
    ensures || PutBack(trace[..n], job, trace[k].inode)
            || (trace[k].inode == job.input && Compared(job.input, job.read) in trace[..n])
  {
    assert CarefulAt(trace, job, k);
    var a: nat, b: nat, c: nat :| DurableAt(trace[..k], job, a, b, c);
    assert DurableAt(trace[..n], job, a, b, c);
    assert forall op :: op in trace[..k] ==> op in trace[..n];
  }

  /** The file system, with the operations edc uses. Any of them may fail. */
  class FileSystem {
    var names: map<Path, Inode>
    var data: map<Inode, Bytes>
    // Names only edc uses, and inodes only edc writes.
    var own: set<Path>
    var sealed: set<Inode>
    ghost var trace: seq<Op>

    ghost predicate Valid()
      reads this
    {
      (forall name :: name in names ==> names[name] in data) && sealed <= data.Keys
    }

    /** Others leave alone what belongs to this run. */
    twostate predicate OthersOnly()
      reads this
    {
      && Valid() && own == old(own) && sealed == old(sealed) && trace == old(trace) && old(data.Keys) <= data.Keys
      && (forall name :: name in own ==>
           (name in names <==> name in old(names)) && (name in names ==> names[name] == old(names[name])))
      && (forall inode :: inode in sealed && inode in old(data) ==> data[inode] == old(data[inode]))
    }

    /** One step of edc, which changes no file's content. */
    twostate predicate Step(op: Option<Op>)
      reads this
    {
      && Valid() && own == old(own) && sealed == old(sealed) && data == old(data)
      && (if op.Some? then trace == old(trace) + [op.value] else trace == old(trace))
    }

    /** Others do anything to any other name and to what is in any other file. */
    method Others()
      requires Valid()
      modifies `names, `data
      ensures OthersOnly()
    {
      var otherNames: map<Path, Inode> := *;
      var otherData: map<Inode, Bytes> := *;
      data := data + map inode | inode in otherData && inode !in sealed :: otherData[inode];
      names := (map name | name in otherNames && name !in own && otherNames[name] in data :: otherNames[name])
               + map name | name in names && name in own :: names[name];
    }

    /** A hard link, which replaces nothing. */
    method Link(from: Path, to: Path) returns (error: Option<Error>)
      requires Valid()
      modifies `names, `trace
      ensures error.None? ==>
                && from in old(names) && to !in old(names) && names == old(names)[to := old(names)[from]]
                && Step(Some(Linked(old(names)[from], to)))
      ensures error.Some? ==> Step(None) && names == old(names)
    {
      var fails: bool := *;
      if to in names {
        return Some(Exists);
      }
      if fails || from !in names {
        return Some(Io);
      }
      names := names[to := names[from]];
      trace := trace + [Linked(names[from], to)];
      return None;
    }

    method Rename(from: Path, to: Path) returns (error: Option<Error>)
      requires Valid() && from != to
      modifies `names, `trace
      ensures error.None? ==>
                && from in old(names) && names == old(names)[to := old(names)[from]] - {from}
                && Step(Some(Moved(old(names)[from], from, to,
                                   if to in old(names) then Some(old(names)[to]) else None)))
      ensures error.Some? ==> Step(None) && names == old(names)
    {
      var fails: bool := *;
      if fails || from !in names {
        return Some(Io);
      }
      trace := trace + [Moved(names[from], from, to, if to in names then Some(names[to]) else None)];
      names := names[to := names[from]] - {from};
      return None;
    }

    method Remove(name: Path) returns (error: Option<Error>)
      requires Valid()
      modifies `names, `trace
      ensures error.None? ==>
                name in old(names) && names == old(names) - {name} && Step(Some(Unlinked(old(names)[name], name)))
      ensures error.Some? ==> Step(None) && names == old(names)
    {
      var fails: bool := *;
      if fails || name !in names {
        return Some(Io);
      }
      trace := trace + [Unlinked(names[name], name)];
      names := names - {name};
      return None;
    }

    /** A new empty file under a new name of edc's own. */
    method Create(name: Path) returns (inode: Inode, error: Option<Error>)
      requires Valid()
      modifies `names, `data, `own, `sealed
      ensures Valid() && trace == old(trace)
      ensures error.None? ==>
                && name !in old(names) && inode !in old(data) && names == old(names)[name := inode]
                && data == old(data)[inode := ""]
                && own == old(own) + {name} && sealed == old(sealed) + {inode}
      ensures error.Some? ==> names == old(names) && data == old(data) && own == old(own) && sealed == old(sealed)
    {
      var fails: bool := *;
      inode := *;
      if fails || inode in data || name in names {
        return inode, Some(if fails || inode in data then Io else Exists);
      }
      names, data := names[name := inode], data[inode := ""];
      own, sealed := own + {name}, sealed + {inode};
      return inode, None;
    }

    /** A new directory, so that nothing is in it; others do not enter it. */
    method MakeHold(held: Path) returns (error: Option<Error>)
      requires Valid()
      modifies `own
      ensures Valid()
      ensures error.None? ==> held !in names && held !in old(own) && own == old(own) + {held}
      ensures error.Some? ==> own == old(own)
    {
      var fails: bool := *;
      if fails || held in names || held in own {
        return Some(Io);
      }
      own := own + {held};
      return None;
    }

    method Write(inode: Inode, bytes: Bytes) returns (error: Option<Error>)
      requires Valid() && inode in sealed
      modifies `data
      ensures Valid() && data.Keys == old(data.Keys) && forall other :: other in data && other != inode ==>
                data[other] == old(data[other])
      ensures error.None? ==> data[inode] == bytes
    {
      var fails: bool, part: Bytes := *, *;
      data := data[inode := if fails then part else bytes];
      return if fails then Some(Io) else None;
    }

    method Sync(inode: Inode) returns (error: Option<Error>)
      requires Valid() && inode in data
      modifies `trace
      ensures Step(if error.None? then Some(Synced(inode, data[inode])) else None)
    {
      var fails: bool := *;
      if fails {
        return Some(Io);
      }
      trace := trace + [Synced(inode, data[inode])];
      return None;
    }

    method SyncDir(dir: string) returns (error: Option<Error>)
      requires Valid()
      modifies `trace
      ensures Step(if error.None? then Some(DirSynced(dir)) else None)
    {
      var fails: bool := *;
      if fails {
        return Some(Io);
      }
      trace := trace + [DirSynced(dir)];
      return None;
    }

    /** Reads a file from the start and compares it with the bytes read before. */
    method SameData(inode: Inode, read: Bytes) returns (error: Option<Error>)
      requires Valid() && inode in data
      modifies `trace
      ensures error.None? ==> data[inode] == read && Step(Some(Compared(inode, read)))
      ensures error.Some? ==> Step(None)
    {
      var fails: bool := *;
      if fails {
        return Some(Io);
      }
      if data[inode] != read {
        return Some(Changed);
      }
      trace := trace + [Compared(inode, read)];
      return None;
    }
  }

  /** A file that was moved aside is accounted for: it was the input and was deleted, or it was put back, or it is
      still held and the run failed. */
  ghost predicate SettledOne(names: map<Path, Inode>, trace: seq<Op>, job: Job, error: Option<Error>, inode: Inode) {
    || (inode == job.input && Unlinked(inode, job.held) in trace)
    || PutBack(trace, job, inode)
    || (job.held in names && names[job.held] == inode && error.Some?)
  }

  ghost predicate Settled(names: map<Path, Inode>, trace: seq<Op>, job: Job, error: Option<Error>) {
    forall inode :: Moved(inode, job.path, job.held, None) in trace ==> SettledOne(names, trace, job, error, inode)
  }

  ghost predicate NoneMoved(trace: seq<Op>) {
    forall op :: op in trace ==> !op.Moved?
  }

  /** Nothing was moved since. */
  ghost predicate SameMoves(before: seq<Op>, after: seq<Op>) {
    before <= after && forall op: Op :: op.Moved? && op in after ==> op in before
  }

  lemma SameMovesStart(trace: seq<Op>)
    ensures SameMoves(trace, trace)
  {
  }

  lemma SameMovesTwice(a: seq<Op>, b: seq<Op>, c: seq<Op>)
    requires SameMoves(a, b) && SameMoves(b, c)
    ensures SameMoves(a, c)
  {
  }

  lemma SameMovesSnoc(before: seq<Op>, after: seq<Op>, op: Op)
    requires SameMoves(before, after) && !op.Moved?
    ensures SameMoves(before, after + [op])
  {
  }

  lemma OneMoved(before: seq<Op>, inode: Inode, names: map<Path, Inode>, trace: seq<Op>, job: Job, error: Option<Error>)
    requires NoneMoved(before) && SameMoves(before + [Moved(inode, job.path, job.held, None)], trace)
    requires SettledOne(names, trace, job, error, inode)
    ensures Settled(names, trace, job, error)
  {
  }

  lemma DurableLater(trace: seq<Op>, more: seq<Op>, job: Job)
    requires Durable(trace, job) && trace <= more
    ensures Durable(more, job)
  {
    var a: nat, b: nat, c: nat :| DurableAt(trace, job, a, b, c);
    assert DurableAt(more, job, a, b, c);
  }

  /** The checks of a file that was moved aside; without an error it is the input, unchanged since it was converted. */
  method Examine(fs: FileSystem, job: Job) returns (error: Option<Error>)
    requires fs.Valid() && job.held in fs.names && job.held in fs.own && job.input in fs.data && Careful(fs.trace, job)
    modifies fs
    ensures fs.Valid() && Careful(fs.trace, job) && job.held in fs.own && job.input in fs.data
    ensures fs.sealed == old(fs.sealed)
    ensures job.held in fs.names && fs.names[job.held] == old(fs.names[job.held])
    ensures fs.trace == old(fs.trace) || fs.trace == old(fs.trace) + [Compared(job.input, job.read)]
    ensures error.None? ==>
              fs.names[job.held] == job.input && fs.trace == old(fs.trace) + [Compared(job.input, job.read)]
  {
    hide Careful;
    var statFails: bool, inUse: bool, unchecked: bool, broken: bool := *, *, *, *;
    error := if statFails then Some(Io) else if fs.names[job.held] != job.input then Some(Changed) else None;
    if error.None? {
      error := if unchecked then Some(Io) else if inUse then Some(InUse) else None;
    }
    fs.Others();
    if error.None? {
      CarefulSnoc(fs.trace, Compared(job.input, job.read), job);
      error := fs.SameData(job.input, job.read);
    }
    fs.Others();
    if error.None? && broken {
      error := Some(InUse);
    }
  }

  /** Deletes the file that was converted, and only that. */
  method RemoveInput(fs: FileSystem, job: Job) returns (error: Option<Error>)
    requires fs.Valid() && job.input in fs.data && job.path != job.held
    requires Careful(fs.trace, job) && Durable(fs.trace, job) && NoneMoved(fs.trace)
    modifies fs
    ensures fs.Valid() && Careful(fs.trace, job) && Settled(fs.names, fs.trace, job, error)
    ensures error.None? ==> Unlinked(job.input, job.held) in fs.trace
    ensures old(fs.trace) <= fs.trace
  {
    hide Careful, Durable;
    fs.Others();
    var statFails: bool, newTime: bool := *, *;
    if statFails {
      return Some(Io);
    }
    if |fs.data[job.input]| != |job.read| || newTime {
      return Some(Changed);
    }
    fs.Others();
    error := fs.MakeHold(job.held);
    if error.Some? {
      return;
    }
    fs.Others();
    ghost var before := fs.trace;
    error := fs.Rename(job.path, job.held);
    if error.Some? {
      return;
    }
    ghost var inode := fs.names[job.held];
    CarefulSnoc(before, Moved(inode, job.path, job.held, None), job);
    DurableLater(before, fs.trace, job);
    error := DeleteOrPutBack(fs, job, inode);
    OneMoved(before, inode, fs.names, fs.trace, job, error);
  }

  /** Links the held file to its name again, unless the name is taken. */
  method Restore(fs: FileSystem, job: Job, failed: Option<Error>, ghost inode: Inode) returns (error: Option<Error>)
    requires fs.Valid() && job.held in fs.own && job.held in fs.names && fs.names[job.held] == inode
    requires Careful(fs.trace, job) && Durable(fs.trace, job) && failed.Some? && job.path != job.held
    modifies fs
    ensures fs.Valid() && Careful(fs.trace, job) && SettledOne(fs.names, fs.trace, job, error, inode)
    ensures error.Some? && SameMoves(old(fs.trace), fs.trace)
  {
    hide Careful, Durable, SameMoves;
    ghost var before := fs.trace;
    SameMovesStart(before);
    fs.Others();
    CarefulSnoc(fs.trace, Linked(inode, job.path), job);
    SameMovesSnoc(before, fs.trace, Linked(inode, job.path));
    var notLinked := fs.Link(job.held, job.path);
    if notLinked.Some? {
      return Some(NotLinked);
    }
    fs.Others();
    DurableLater(before, fs.trace, job);
    CarefulSnoc(fs.trace, Unlinked(inode, job.held), job);
    SameMovesSnoc(before, fs.trace, Unlinked(inode, job.held));
    var ignored := fs.Remove(job.held);
    return failed;
  }

  /** Deletes a file that was moved aside when it is the unchanged input, and otherwise puts it back. */
  method DeleteOrPutBack(fs: FileSystem, job: Job, ghost inode: Inode) returns (error: Option<Error>)
    requires fs.Valid() && job.input in fs.data && job.held in fs.own && job.held in fs.names
    requires fs.names[job.held] == inode
    requires Careful(fs.trace, job) && Durable(fs.trace, job) && job.path != job.held
    modifies fs
    ensures fs.Valid() && Careful(fs.trace, job) && SettledOne(fs.names, fs.trace, job, error, inode)
    ensures error.None? ==> Unlinked(job.input, job.held) in fs.trace
    ensures SameMoves(old(fs.trace), fs.trace)
  {
    hide Careful, Durable, SameMoves;
    ghost var before := fs.trace;
    SameMovesStart(before);
    fs.Others();
    error := Examine(fs, job);
    SameMovesSnoc(before, before, Compared(job.input, job.read));
    if error.None? {
      DurableLater(before, fs.trace, job);
      CarefulSnoc(fs.trace, Unlinked(job.input, job.held), job);
      SameMovesSnoc(before, fs.trace, Unlinked(job.input, job.held));
      error := fs.Remove(job.held);
      if error.None? {
        var notEmpty: bool := *;
        return if notEmpty then Some(Io) else None;
      }
    }
    ghost var middle := fs.trace;
    DurableLater(before, middle, job);
    error := Restore(fs, job, error, inode);
    SameMovesTwice(before, middle, fs.trace);
  }

  /** What was done for the output: synced, then linked to its name, then the temporary name removed. */
  ghost predicate Produced(trace: seq<Op>, out: Inode, bytes: Bytes, target: Path, temp: Path) {
    var done := [Synced(out, bytes), Linked(out, target)];
    trace == done || trace == done + [Unlinked(out, temp)]
  }

  /** What was done for an output that failed: the file may have been synced, and its temporary name removed. */
  ghost predicate Unfinished(trace: seq<Op>, out: Inode, temp: Path) {
    || trace == []
    || trace == [Unlinked(out, temp)]
    || (|trace| == 1 && trace[0].Synced?)
    || (|trace| == 2 && trace[0].Synced? && trace[1] == Unlinked(out, temp))
  }

  lemma UnfinishedIsCareful(trace: seq<Op>, job: Job, temp: Path, names: map<Path, Inode>, error: Option<Error>)
    requires Unfinished(trace, job.out, temp) && temp != job.held
    ensures Careful(trace, job) && Harmless(trace, temp) && Settled(names, trace, job, error)
    ensures Linked(job.out, job.target) !in trace
  {
  }

  /** Fills the temporary file and makes its content durable. */
  method Fill(fs: FileSystem, out: Inode, bytes: Option<Bytes>, temp: Path) returns (error: Option<Error>)
    requires fs.Valid() && fs.trace == [] && temp in fs.own && temp in fs.names && fs.names[temp] == out
    requires out in fs.sealed
    modifies fs
    ensures fs.Valid() && old(fs.data.Keys) <= fs.data.Keys && temp in fs.own && temp in fs.names
    ensures fs.names[temp] == out
    ensures error.None? ==> bytes.Some? && fs.trace == [Synced(out, bytes.value)]
    ensures error.Some? ==> fs.trace == [] || (|fs.trace| == 1 && fs.trace[0].Synced?)
  {
    if bytes.None? {
      return Some(Io);
    }
    error := fs.Write(out, bytes.value);
    fs.Others();
    var noMetadata: bool, notClosed: bool := *, *;
    if error.Some? || noMetadata {
      return Some(Io);
    }
    error := fs.Sync(out);
    if notClosed {
      error := Some(Io);
    }
  }

  /** Writes the output under a temporary name and then gives it its own. */
  method Produce(fs: FileSystem, out: Inode, bytes: Option<Bytes>, target: Path, temp: Path)
      returns (error: Option<Error>)
    requires fs.Valid() && fs.trace == [] && temp in fs.own && temp in fs.names && fs.names[temp] == out
    requires out in fs.sealed
    modifies fs
    ensures fs.Valid() && old(fs.data.Keys) <= fs.data.Keys
    ensures error.None? ==> bytes.Some? && Produced(fs.trace, out, bytes.value, target, temp)
    ensures error.Some? ==> Unfinished(fs.trace, out, temp)
  {
    error := Fill(fs, out, bytes, temp);
    fs.Others();
    if error.None? {
      error := fs.Link(temp, target);
    }
    fs.Others();
    var ignored := fs.Remove(temp);
  }

  lemma ProducedThenSynced(trace: seq<Op>, job: Job, temp: Path, names: map<Path, Inode>, error: Option<Error>)
    requires Produced(trace, job.out, job.written, job.target, temp) && temp != job.held
    ensures Careful(trace, job) && Harmless(trace, temp) && NoneMoved(trace)
    ensures NoneMoved(trace + [DirSynced(job.target.dir)])
    ensures Settled(names, trace, job, error)
    ensures Synced(job.out, job.written) in trace && Linked(job.out, job.target) in trace
    ensures Durable(trace + [DirSynced(job.target.dir)], job)
  {
    assert trace[0] == Synced(job.out, job.written) && trace[1] == Linked(job.out, job.target);
    HarmlessIsCareful(trace, temp, job);
    assert DurableAt(trace + [DirSynced(job.target.dir)], job, 0, 1, |trace|);
  }

  /** Opens a regular file, the same one that was looked at. */
  method OpenInput(fs: FileSystem, path: Path) returns (input: Inode, error: Option<Error>)
    requires fs.Valid()
    modifies fs
    ensures fs.Valid() && fs.trace == old(fs.trace)
    ensures error.None? ==> input in fs.data && path in old(fs.names) && input == old(fs.names[path])
  {
    var statFails: bool, irregular: bool, openFails: bool := *, *, *;
    if statFails || path !in fs.names {
      return 0, Some(Io);
    }
    if irregular {
      return 0, Some(NotRegular);
    }
    input := fs.names[path];
    fs.Others();
    if openFails || path !in fs.names {
      return input, Some(Io);
    }
    return input, if fs.names[path] == input then None else Some(NotRegular);
  }

  /** Converts a file, and with remove deletes it then. The names of the temporary file and of the hold are random. */
  method ConvertFile(fs: FileSystem, path: Path, target: Path, temp: Path, held: Path, remove: bool,
                     convert: Bytes -> Option<Bytes>)
      returns (error: Option<Error>, job: Job)
    requires fs.Valid() && fs.trace == [] && path != held && temp != held
    modifies fs
    ensures fs.Valid() && Careful(fs.trace, job) && Settled(fs.names, fs.trace, job, error)
    ensures job.path == path && job.target == target && job.held == held
    // What is under the output name is all of the conversion of what was read.
    ensures Linked(job.out, target) in fs.trace ==>
              Synced(job.out, job.written) in fs.trace && convert(job.read) == Some(job.written)
    ensures error.None? ==> Linked(job.out, target) in fs.trace
    ensures error.None? && remove ==> Durable(fs.trace, job) && Unlinked(job.input, held) in fs.trace
    ensures !remove ==> Harmless(fs.trace, temp)
  {
    hide Careful, Durable, DurableAt, Produced, Unfinished, Harmless, Settled;
    job := Job(path, target, held, 0, "", 0, "");
    NothingDone(job, temp);
    var input, out;
    input, error := OpenInput(fs, path);
    if error.Some? {
      return;
    }
    fs.Others();
    if target in fs.names {
      return Some(Exists), job;
    }
    out, error := fs.Create(temp);
    if error.Some? {
      return;
    }
    fs.Others();
    // The input may be written while it is read.
    var read: Bytes := *;
    var bytes := convert(read);
    job := Job(path, target, held, input, read, out, if bytes.Some? then bytes.value else "");
    fs.Others();
    error := Produce(fs, out, bytes, target, temp);
    if error.Some? {
      UnfinishedIsCareful(fs.trace, job, temp, fs.names, error);
      return;
    }
    ProducedThenSynced(fs.trace, job, temp, fs.names, error);
    if remove {
      error := SyncThenRemove(fs, job, temp);
    }
  }

  /** Makes the output's name durable, and then deletes the input. */
  method SyncThenRemove(fs: FileSystem, job: Job, ghost temp: Path) returns (error: Option<Error>)
    requires fs.Valid() && job.input in fs.data && job.path != job.held && temp != job.held
    requires Produced(fs.trace, job.out, job.written, job.target, temp)
    modifies fs
    ensures fs.Valid() && Careful(fs.trace, job) && Settled(fs.names, fs.trace, job, error)
    ensures old(fs.trace) <= fs.trace
    ensures error.None? ==> Durable(fs.trace, job) && Unlinked(job.input, job.held) in fs.trace
  {
    hide Careful, Durable, Produced, Settled, Harmless;
    ghost var before := fs.trace;
    fs.Others();
    error := fs.SyncDir(job.target.dir);
    ProducedThenSynced(before, job, temp, fs.names, error);
    if error.Some? {
      return;
    }
    CarefulSnoc(before, DirSynced(job.target.dir), job);
    error := RemoveInput(fs, job);
    DurableLater(before + [DirSynced(job.target.dir)], fs.trace, job);
  }

  lemma NothingDone(job: Job, temp: Path)
    requires temp != job.held
    ensures Careful([], job) && Harmless([], temp)
    ensures forall names, error :: Settled(names, [], job, error)
  {
  }
}
