// Measuring what is left of a folder when some of the paths below it have been measured already.
module CleanWalk {
  import opened Folds

  /** A clean absolute path, as its components. */
  type Path = seq<string>

  /** The components of a clean path are not empty and hold no separator. */
  predicate Clean(path: Path) {
    forall i :: 0 <= i < |path| ==> path[i] != "" && '/' !in path[i]
  }

  function Joined(path: Path): string {
    if path == [] then "" else "/" + path[0] + Joined(path[1..])
  }

  /** The path as text. */
  function Text(path: Path): string {
    if path == [] then "/" else Joined(path)
  }

  predicate PathUnder(path: string, mount: string) {
    mount == "/" || path == mount || mount + "/" <= path
  }

  /** Texts that start with a component and then end or go on with a separator split in one way. */
  lemma SplitAtSlash(a: string, s: string, b: string, t: string)
    requires '/' !in a && '/' !in b && a + s == b + t
    requires (s == "" || s[0] == '/') && (t == "" || t[0] == '/')
    ensures a == b && s == t
  {
    var x := a + s;
    assert forall k :: 0 <= k < |a| ==> x[k] == a[k] && a[k] in a;
    assert forall k :: 0 <= k < |b| ==> (b + t)[k] == b[k] && b[k] in b;
    assert |a| < |x| ==> x[|a|] == s[0];
    assert |b| < |x| ==> (b + t)[|b|] == t[0];
    assert |a| == |b|;
    assert a == (a + s)[..|a|] && b == (b + t)[..|b|];
    assert s == (a + s)[|a|..] && t == (b + t)[|b|..];
  }

  lemma {:induction false} JoinedUnder(path: Path, mount: Path)
    requires Clean(path) && Clean(mount)
    ensures Joined(path) == Joined(mount) ==> path == mount
    ensures Joined(mount) + "/" <= Joined(path) ==> mount < path
  {
    if mount != [] && path != [] {
      JoinedUnder(path[1..], mount[1..]);
      assert path == [path[0]] + path[1..] && mount == [mount[0]] + mount[1..];
      if Joined(path) == Joined(mount) {
        SameFirst(path, mount, "");
      }
      if Joined(mount) + "/" <= Joined(path) {
        SameFirst(path, mount, Joined(path)[|Joined(mount)|..]);
      }
    }
  }

  /** When one text goes on where another ends, both start with the same component. */
  lemma SameFirst(path: Path, mount: Path, more: string)
    requires Clean(path) && Clean(mount) && path != [] && mount != []
    requires Joined(path) == Joined(mount) + more && (more == "" || more[0] == '/')
    ensures path[0] == mount[0] && Joined(path[1..]) == Joined(mount[1..]) + more
  {
    hide Joined;
    Unjoin(path);
    Unjoin(mount);
    Peel(path[0], Joined(path[1..]), mount[0], Joined(mount[1..]), more);
    StartsWithSlash(path[1..]);
    StartsWithSlash(mount[1..]);
    SplitAtSlash(path[0], Joined(path[1..]), mount[0], Joined(mount[1..]) + more);
  }

  lemma Unjoin(path: Path)
    requires path != []
    ensures Joined(path) == "/" + path[0] + Joined(path[1..])
  {
  }

  lemma Peel(p: string, s: string, m: string, t: string, more: string)
    requires "/" + p + s == "/" + m + t + more
    ensures p + s == m + (t + more)
  {
    assert p + s == ("/" + p + s)[1..];
    assert m + (t + more) == ("/" + m + t + more)[1..];
  }

  lemma StartsWithSlash(path: Path)
    ensures Joined(path) == "" || Joined(path)[0] == '/'
  {
  }

  lemma {:induction false} JoinedAppend(mount: Path, more: Path)
    ensures Joined(mount + more) == Joined(mount) + Joined(more)
  {
    if mount == [] {
      assert mount + more == more;
    } else {
      assert (mount + more)[1..] == mount[1..] + more;
      JoinedAppend(mount[1..], more);
    }
  }

  /** The test on texts is the test on components: /a/bc is not under /a/b. */
  lemma UnderIsPrefix(path: Path, mount: Path)
    requires Clean(path) && Clean(mount)
    ensures PathUnder(Text(path), Text(mount)) <==> mount <= path
  {
    JoinedUnder(path, mount);
    if mount <= path {
      assert path == mount + path[|mount|..];
      JoinedAppend(mount, path[|mount|..]);
    }
    if mount != [] && path == [] {
      assert |Joined(mount)| > 1;
    }
  }

  // The tree that is walked.

  datatype Kind = File | Dir | Link

  /** What is wrong with an entry: it has gone, or a call on it fails, or it is on another device. */
  datatype Fault = Fine | Gone | StatFails | ListFails | MeasureFails | OtherDevice

  /** told is what a measurement of the whole of it would say. */
  datatype Node = Node(kind: Kind, blocks: nat, fault: Fault, told: Scan, children: seq<Entry>)

  datatype Entry = Entry(name: string, node: Node)

  /** The blocks of everything that is there in a folder, but for the excluded paths and what is below them. */
  ghost function Rest(entries: seq<Entry>, dir: Path, excluded: set<Path>): nat
    decreases entries
  {
    if entries == [] then 0 else RestOf(entries[0], dir, excluded) + Rest(entries[1..], dir, excluded)
  }

  ghost function RestOf(entry: Entry, dir: Path, excluded: set<Path>): nat
    decreases entry
  {
    var path := dir + [entry.name];
    if path in excluded || entry.node.fault == Gone then 0
    else entry.node.blocks + Rest(entry.node.children, path, excluded)
  }

  /** All of a folder. */
  ghost function Blocks(entries: seq<Entry>): nat {
    if entries == [] then 0 else BlocksOf(entries[0]) + Blocks(entries[1..])
  }

  ghost function BlocksOf(entry: Entry): nat {
    if entry.node.fault == Gone then 0 else entry.node.blocks + Blocks(entry.node.children)
  }

  ghost predicate NothingUnder(path: Path, excluded: set<Path>) {
    forall e :: e in excluded ==> !(path <= e)
  }

  lemma {:induction false} RestIsAll(entries: seq<Entry>, dir: Path, excluded: set<Path>)
    requires NothingUnder(dir, excluded)
    ensures Rest(entries, dir, excluded) == Blocks(entries)
    decreases entries
  {
    if entries != [] {
      RestOfIsAll(entries[0], dir, excluded);
      RestIsAll(entries[1..], dir, excluded);
    }
  }

  /** With nothing excluded at or below it, what is left of an entry is all of it. */
  lemma {:induction false} RestOfIsAll(entry: Entry, dir: Path, excluded: set<Path>)
    requires NothingUnder(dir + [entry.name], excluded)
    ensures RestOf(entry, dir, excluded) == BlocksOf(entry)
    decreases entry
  {
    RestIsAll(entry.node.children, dir + [entry.name], excluded);
  }

  /** Every call on what is there succeeds, and every measurement is complete. */
  ghost predicate Faultless(entries: seq<Entry>) {
    entries != [] ==> FaultlessOf(entries[0]) && Faultless(entries[1..])
  }

  ghost predicate FaultlessOf(entry: Entry) {
    entry.node.fault in {Fine, Gone} && entry.node.told.Complete() && Faultless(entry.node.children)
  }

  lemma {:induction false} FaultlessAt(entries: seq<Entry>, k: nat)
    requires Faultless(entries) && k < |entries|
    ensures FaultlessOf(entries[k])
  {
    if k > 0 {
      FaultlessAt(entries[1..], k - 1);
    }
  }

  /** The paths measured below a folder: of each entry the whole, or, where it holds an excluded path, what is left. */
  ghost function RootsIn(entries: seq<Entry>, dir: Path, excluded: set<Path>): seq<Path>
    decreases entries
  {
    if entries == [] then [] else RootsOf(entries[0], dir, excluded) + RootsIn(entries[1..], dir, excluded)
  }

  ghost function RootsOf(entry: Entry, dir: Path, excluded: set<Path>): seq<Path>
    decreases entry
  {
    var path := dir + [entry.name];
    if PassedOver(entry, path, excluded) then []
    else if entry.node.kind == Dir && !NothingUnder(path, excluded) then
      if entry.node.fault == ListFails then [] else RootsIn(entry.node.children, path, excluded)
    else if entry.node.fault == MeasureFails || entry.node.told.rootUnreadable then []
    else [path]
  }

  /** An entry that has gone or cannot be looked at, is a link, was measured before, or is on another device. */
  ghost predicate PassedOver(entry: Entry, path: Path, excluded: set<Path>) {
    entry.node.fault in {Gone, StatFails, OtherDevice} || entry.node.kind == Link || path in excluded
  }

  lemma RootsOfFolder(entry: Entry, dir: Path, excluded: set<Path>)
    requires entry.node.kind == Dir && !PassedOver(entry, dir + [entry.name], excluded)
    requires !NothingUnder(dir + [entry.name], excluded)
    ensures RootsOf(entry, dir, excluded)
            == if entry.node.fault == ListFails then [] else RootsIn(entry.node.children, dir + [entry.name], excluded)
  {
  }

  lemma AddedTwice(before: seq<Path>, middle: seq<Path>, after: seq<Path>, added: seq<Path>, more: seq<Path>)
    requires middle == before + added && after == middle + more
    ensures after == before + (added + more)
  {
  }

  /** added is what is measured of the first entries. */
  ghost predicate SoFar(added: seq<Path>, entries: seq<Entry>, i: nat, dir: Path, excluded: set<Path>)
    requires i <= |entries|
  {
    added + RootsIn(entries[i..], dir, excluded) == RootsIn(entries, dir, excluded)
  }

  lemma SoFarNone(entries: seq<Entry>, dir: Path, excluded: set<Path>)
    ensures SoFar([], entries, 0, dir, excluded)
  {
    assert entries[0..] == entries;
  }

  lemma SoFarMore(added: seq<Path>, entries: seq<Entry>, i: nat, dir: Path, excluded: set<Path>)
    requires i < |entries| && SoFar(added, entries, i, dir, excluded)
    ensures SoFar(added + RootsOf(entries[i], dir, excluded), entries, i + 1, dir, excluded)
  {
    hide RootsOf;
    assert entries[i..][1..] == entries[i + 1..];
  }

  lemma SoFarAll(added: seq<Path>, entries: seq<Entry>, dir: Path, excluded: set<Path>)
    requires SoFar(added, entries, |entries|, dir, excluded)
    ensures added == RootsIn(entries, dir, excluded)
  {
  }

  // What the paths of the walk are like.

  ghost predicate OnDisk(entries: seq<Entry>, dir: Path, isDir: Path -> bool)
    decreases entries
  {
    entries != [] ==>
      && OnDiskOf(entries[0], dir, isDir) && OnDisk(entries[1..], dir, isDir)
      && forall k :: 1 <= k < |entries| ==> entries[k].name != entries[0].name
  }

  ghost predicate OnDiskOf(entry: Entry, dir: Path, isDir: Path -> bool)
    decreases entry
  {
    && (entry.node.kind == Dir <==> isDir(dir + [entry.name]))
    && (entry.node.kind != Dir ==> entry.node.children == [])
    && OnDisk(entry.node.children, dir + [entry.name], isDir)
  }

  /** Everything above a path is a folder. */
  ghost predicate Placed(path: Path, isDir: Path -> bool) {
    forall n: nat :: n < |path| ==> isDir(path[..n])
  }

  /** Neither of two paths is under the other. */
  ghost predicate Apart(a: Path, b: Path) {
    !(a <= b) && !(b <= a)
  }

  ghost predicate ClearOf(path: Path, paths: set<Path>) {
    forall e :: e in paths ==> Apart(path, e)
  }

  ghost predicate Antichain(paths: seq<Path>) {
    forall i, j :: 0 <= i < j < |paths| ==> Apart(paths[i], paths[j])
  }

  ghost predicate Linkless(entries: seq<Entry>) {
    entries != [] ==> LinklessOf(entries[0]) && Linkless(entries[1..])
  }

  ghost predicate LinklessOf(entry: Entry) {
    entry.node.kind != Link && Linkless(entry.node.children)
  }

  datatype Group = Group(usage: nat, paths: seq<Path>)

  ghost function UsageIn(groups: map<string, Group>): string -> nat {
    n => Used(groups, n)
  }

  function Used(groups: map<string, Group>, name: string): nat {
    if name in groups then groups[name].usage else 0
  }

  lemma GroupGrown(groups: map<string, Group>, name: string, group: Group)
    requires group.usage >= Used(groups, name)
    ensures var more := groups[name := group];
            SumSet(more.Keys, UsageIn(more)) == SumSet(groups.Keys, UsageIn(groups)) + group.usage - Used(groups, name)
  {
    var more := groups[name := group];
    SumSetTake(more.Keys, name, UsageIn(more));
    SumSetCong(more.Keys - {name}, UsageIn(more), UsageIn(groups));
    if name in groups {
      SumSetTake(groups.Keys, name, UsageIn(groups));
      assert more.Keys == groups.Keys;
    } else {
      assert more.Keys - {name} == groups.Keys;
    }
  }

  /** A measurement of a path: its blocks, and what could not be measured. */
  datatype Scan = Scan(total: nat, unreadable: nat, mounts: nat, partial: bool, rootUnreadable: bool) {
    predicate Complete() {
      unreadable == 0 && mounts == 0 && !partial && !rootUnreadable
    }
  }

  /** The measurement of a whole path, which is not part of this model: all its blocks unless it says otherwise. */
  function Measurement(entry: Entry): (scan: Scan)
    ensures scan.total <= BlocksOf(entry)
    ensures scan.Complete() ==> scan.total == BlocksOf(entry)
    ensures scan.rootUnreadable ==> scan.total == 0
    ensures scan == entry.node.told.(total := scan.total)
  {
    var told, blocks := entry.node.told, CountBlocks(entry);
    told.(total := if told.rootUnreadable then 0 else if told.Complete() || told.total > blocks then blocks
      else told.total)
  }

  function CountBlocks(entry: Entry): (n: nat)
    ensures n == BlocksOf(entry)
  {
    if entry.node.fault == Gone then 0 else entry.node.blocks + CountAll(entry.node.children)
  }

  function CountAll(entries: seq<Entry>): (n: nat)
    ensures n == Blocks(entries)
  {
    if entries == [] then 0 else CountBlocks(entries[0]) + CountAll(entries[1..])
  }

  lemma PrefixTake(path: Path, e: Path)
    ensures path <= e ==> path == e || (|path| < |e| && e[..|path|] == path)
  {
  }

  lemma PrefixOfSnoc(e: Path, dir: Path, name: string)
    ensures e <= dir + [name] ==> e <= dir || e == dir + [name]
  {
  }

  lemma {:induction false} DistinctNames(entries: seq<Entry>, dir: Path, isDir: Path -> bool, k: nat)
    requires OnDisk(entries, dir, isDir) && k < |entries|
    ensures forall j :: 0 <= j < k ==> entries[j].name != entries[k].name
    ensures OnDiskOf(entries[k], dir, isDir)
  {
    if k > 0 {
      DistinctNames(entries[1..], dir, isDir, k - 1);
      assert forall j :: 1 <= j < k ==> entries[j] == entries[1..][j - 1];
    }
  }

  lemma {:induction false} LinklessAt(entries: seq<Entry>, k: nat)
    requires Linkless(entries) && k < |entries|
    ensures LinklessOf(entries[k])
  {
    if k > 0 {
      LinklessAt(entries[1..], k - 1);
    }
  }

  lemma RestTail(entries: seq<Entry>, k: nat, dir: Path, excluded: set<Path>)
    requires k < |entries|
    ensures Rest(entries[k..], dir, excluded) == RestOf(entries[k], dir, excluded)
              + Rest(entries[k + 1..], dir, excluded)
  {
    assert entries[k..][1..] == entries[k + 1..];
  }

  lemma RestOfNone(entries: seq<Entry>, dir: Path, excluded: set<Path>)
    ensures Rest(entries[|entries|..], dir, excluded) == 0
  {
  }

  lemma PlacedBelow(dir: Path, name: string, isDir: Path -> bool)
    requires Placed(dir, isDir) && isDir(dir)
    ensures Placed(dir + [name], isDir)
  {
    assert (dir + [name])[..|dir|] == dir;
    assert forall n: nat :: n < |dir| ==> (dir + [name])[..n] == dir[..n];
  }

  /** The counts of a walk. */
  datatype Tally = Tally(groups: map<string, Group>, usage: nat, mounts: nat, unreadable: nat, stopped: bool) {
    /** Nothing was left out that should have been measured. */
    predicate Complete() {
      !stopped && mounts == 0 && unreadable == 0
    }
  }

  /** Up to most bytes were added, to one group; all of them if the walk is complete and had nothing to pass over. */
  ghost predicate Grown(before: Tally, after: Tally, name: string, most: nat, whole: bool) {
    && before.usage <= after.usage <= before.usage + most
    && (forall n: string :: n != name ==> Used(after.groups, n) == Used(before.groups, n))
    && Used(after.groups, name) - Used(before.groups, name) == after.usage - before.usage
    && (before.stopped ==> after.stopped) && before.mounts <= after.mounts && before.unreadable <= after.unreadable
    && (after.Complete() && whole ==> after.usage == before.usage + most)
  }

  ghost function NamesOf(entries: seq<Entry>, n: nat): set<string>
    requires n <= |entries|
  {
    set k | 0 <= k < n :: entries[k].name
  }

  lemma GrownWeaker(a: Tally, b: Tally, name: string, most: nat)
    requires Grown(a, b, name, most, true) || Grown(a, b, name, most, false)
    ensures Grown(a, b, name, most, false)
  {
  }

  lemma AddGrown(a: Tally, b: Tally, name: string, bytes: nat)
    requires b == a.(groups := b.groups, usage := a.usage + bytes) && name in b.groups
    requires b.groups == a.groups[name := b.groups[name]] && b.groups[name].usage == Used(a.groups, name) + bytes
    ensures Grown(a, b, name, bytes, true) && Grown(a, b, name, bytes, false)
  {
  }

  lemma GrownTwice(a: Tally, b: Tally, c: Tally, name: string, most: nat, more: nat, whole: bool)
    requires Grown(a, b, name, most, whole) && Grown(b, c, name, more, whole)
    ensures Grown(a, c, name, most + more, whole)
  {
  }

  lemma NotGrown(a: Tally, b: Tally, name: string, most: nat, whole: bool)
    requires b == a.(mounts := b.mounts, unreadable := b.unreadable, stopped := b.stopped)
    requires a.mounts <= b.mounts && a.unreadable <= b.unreadable && (a.stopped ==> b.stopped)
    requires most == 0 || !whole || !b.Complete()
    ensures Grown(a, b, name, most, whole)
  {
  }

  lemma GrownStopped(a: Tally, b: Tally, name: string, most: nat, more: nat, whole: bool)
    requires Grown(a, b, name, most, whole) && most <= more
    ensures Grown(a, b.(stopped := true), name, more, whole)
  {
  }

  lemma GrownAnyway(a: Tally, b: Tally, name: string, most: nat, whole: bool)
    requires Grown(a, b, name, most, true)
    ensures Grown(a, b, name, most, whole)
  {
  }

  /** Each of the first entries has its own blocks in its own group, and the others have none yet. */
  ghost predicate Shared(groups: map<string, Group>, entries: seq<Entry>, dir: Path, paths: set<Path>, n: nat,
                         exact: bool)
    requires n <= |entries|
  {
    && (forall k :: 0 <= k < n ==> Used(groups, entries[k].name) <= RestOf(entries[k], dir, paths))
    && (exact ==> forall k :: 0 <= k < n ==> Used(groups, entries[k].name) == RestOf(entries[k], dir, paths))
    && (forall k :: n <= k < |entries| ==> Used(groups, entries[k].name) == 0)
  }

  lemma NothingShared(groups: map<string, Group>, entries: seq<Entry>, dir: Path, paths: set<Path>, exact: bool)
    requires groups == map[]
    ensures Shared(groups, entries, dir, paths, 0, exact)
  {
  }

  lemma SharedEarly(groups: map<string, Group>, entries: seq<Entry>, dir: Path, paths: set<Path>, n: nat, exact: bool)
    requires n <= |entries| && Shared(groups, entries, dir, paths, n, exact)
    ensures Shared(groups, entries, dir, paths, |entries|, false)
  {
  }

  lemma SharedMore(before: Tally, after: Tally, entries: seq<Entry>, dir: Path, paths: set<Path>, i: nat, whole: bool,
                   linkless: bool)
    requires i < |entries| && (whole ==> linkless)
    requires forall k: nat :: k < |entries| ==> forall j :: 0 <= j < k ==> entries[j].name != entries[k].name
    requires Shared(before.groups, entries, dir, paths, i, before.Complete() && whole)
    requires Grown(before, after, entries[i].name, RestOf(entries[i], dir, paths), linkless)
    ensures Shared(after.groups, entries, dir, paths, i + 1, after.Complete() && whole)
    ensures before.usage <= after.usage <= before.usage + RestOf(entries[i], dir, paths)
    ensures after.Complete() && whole ==>
              before.Complete() && after.usage == before.usage + RestOf(entries[i], dir, paths)
  {
    hide RestOf, Used;
  }

  /** When a scan is to end: never, or from some check on. */
  class Context {
    const patience: Option<nat>
    var checks: nat

    constructor (patience: Option<nat>)
      ensures this.patience == patience && checks == 0
    {
      this.patience, checks := patience, 0;
    }

    method Err() returns (ended: bool)
      modifies this
      ensures checks == old(checks) + 1 && (ended <==> patience.Some? && old(checks) >= patience.value)
    {
      ended := patience.Some? && checks >= patience.value;
      checks := checks + 1;
    }
  }

  class ChildWalk {
    const ctx: Context
    const excluded: map<Path, string>
    ghost const isDir: Path -> bool
    var hit: set<string>
    var groups: map<string, Group>
    var roots: seq<Path>
    var usage: nat
    var mounts: nat
    var unreadable: nat
    var stopped: bool

    /** The groups add up to the usage. */
    ghost predicate Valid()
      reads this
    {
      && usage == SumSet(groups.Keys, UsageIn(groups))
      && forall e :: e in excluded ==> Placed(e, isDir)
    }

    constructor (ctx: Context, excluded: map<Path, string>, ghost isDir: Path -> bool)
      requires forall e :: e in excluded ==> Placed(e, isDir)
      ensures Valid() && Now().Complete() && this.ctx == ctx && this.excluded == excluded && this.isDir == isDir
      ensures hit == {} && groups == map[] && roots == [] && usage == 0
    {
      this.ctx := ctx;
      this.excluded := excluded;
      this.isDir := isDir;
      hit, groups, roots, usage, mounts, unreadable, stopped := {}, map[], [], 0, 0, 0, false;
    }

    method Add(name: string, bytes: nat)
      requires Valid()
      modifies `groups, `usage
      ensures Valid() && usage == old(usage) + bytes
      ensures var paths := if name in old(groups) then old(groups)[name].paths else [];
              groups == old(groups)[name := Group(old(Used(groups, name)) + bytes, paths)]
    {
      var group := if name in groups then groups[name] else Group(0, []);
      GroupGrown(groups, name, Group(group.usage + bytes, group.paths));
      groups := groups[name := group.(usage := group.usage + bytes)];
      usage := usage + bytes;
    }

    ghost function Now(): Tally
      reads this
    {
      Tally(groups, usage, mounts, unreadable, stopped)
    }

    /** What a step of the walk did: it counted up to most bytes for one group, and added roots not nested with each
        other. */
    twostate predicate Walked(name: string, added: seq<Path>, most: nat, whole: bool)
      reads this
    {
      && Valid() && roots == old(roots) + added && Antichain(added)
      && Grown(old(Now()), Now(), name, most, whole)
    }

    /** What holds of the walk after a step over something: unless it was stopped, it added the roots; where nothing
        fails and the scan does not end, it goes on without missing anything. */
    twostate predicate Went(added: seq<Path>, roots: seq<Path>, faultless: bool)
      reads this
    {
      && (!stopped ==> added == roots)
      && (old(Now()).Complete() && faultless && ctx.patience.None? ==> Now().Complete())
    }

    method MeasureEntry(dir: Path, entry: Entry, name: string) returns (ghost added: seq<Path>)
      requires Valid() && entry.node.fault != Gone
      modifies this
      ensures Walked(name, added, BlocksOf(entry), true)
      ensures added == if entry.node.fault == MeasureFails || entry.node.told.rootUnreadable then []
                else [dir + [entry.name]]
      ensures old(Now()).Complete() && entry.node.fault == Fine && entry.node.told.Complete() ==> Now().Complete()
    {
      hide Grown, SumSet, Blocks;
      var path := dir + [entry.name];
      added := [];
      ghost var before := Now();
      var scan := Measurement(entry);
      if entry.node.fault == MeasureFails || scan.rootUnreadable {
        unreadable := unreadable + 1;
        NotGrown(before, Now(), name, BlocksOf(entry), true);
        return;
      }
      roots := roots + [path];
      added := [path];
      AddMeasured(name, scan.total, path);
      ghost var middle := Now();
      unreadable := unreadable + scan.unreadable;
      mounts := mounts + scan.mounts;
      stopped := stopped || scan.partial;
      NotGrown(middle, Now(), name, BlocksOf(entry) - scan.total, true);
      GrownTwice(before, middle, Now(), name, scan.total, BlocksOf(entry) - scan.total, true);
    }

    method AddMeasured(name: string, bytes: nat, path: Path)
      requires Valid()
      modifies `groups, `usage
      ensures Valid() && Grown(old(Now()), Now(), name, bytes, true)
    {
      hide Grown, SumSet;
      Add(name, bytes);
      NotePath(name, path);
      AddGrown(old(Now()), Now(), name, bytes);
    }

    /** Keeps the path of a measurement with its group. */
    method NotePath(name: string, path: Path)
      requires Valid() && name in groups
      modifies `groups
      ensures Valid() && groups == old(groups)[name := old(groups)[name].(paths := old(groups)[name].paths + [path])]
    {
      var group := groups[name];
      GroupGrown(groups, name, group.(paths := group.paths + [path]));
      groups := groups[name := group.(paths := group.paths + [path])];
    }

    method HoldsExcluded(path: Path) returns (holds: bool)
      ensures holds <==> exists e :: e in excluded && path <= e
    {
      var left := excluded.Keys;
      while left != {}
        invariant left <= excluded.Keys
        invariant forall e :: e in excluded && path <= e ==> e in left
        decreases left
      {
        var e :| e in left;
        if path <= e {
          return true;
        }
        left := left - {e};
      }
      return false;
    }

    /** The roots a step added are inside what it walked, and nested with no excluded path. */
    ghost predicate Fit(added: seq<Path>, dir: Path, names: set<string>)
    {
      forall r :: r in added ==>
        && |dir| < |r| && dir <= r && r[|dir|] in names
        && ClearOf(r, excluded.Keys) && Placed(r, isDir)
    }

    lemma NothingAdded(dir: Path, entries: seq<Entry>)
      ensures Antichain([]) && Fit([], dir, NamesOf(entries, 0))
    {
    }

    lemma FitMore(added: seq<Path>, dir: Path, entries: seq<Entry>, i: nat)
      requires i <= |entries| && Fit(added, dir, NamesOf(entries, i))
      ensures Fit(added, dir, NamesOf(entries, |entries|))
    {
      hide ClearOf, Placed;
    }

    lemma JoinAdded(added: seq<Path>, more: seq<Path>, dir: Path, entries: seq<Entry>, i: nat)
      requires i < |entries| && forall j :: 0 <= j < i ==> entries[j].name != entries[i].name
      requires Antichain(added) && Fit(added, dir, NamesOf(entries, i))
      requires Antichain(more) && Fit(more, dir, {entries[i].name})
      ensures Antichain(added + more) && Fit(added + more, dir, NamesOf(entries, i + 1))
    {
      hide ClearOf, Placed;
      forall a, b | a in added && b in more
        ensures Apart(a, b)
      {
        assert a[|dir|] != b[|dir|];
      }
    }

    /** Whether an entry is passed over: it has gone or cannot be looked at, is a link, was measured before, or is on
        another device. */
    method Skip(entry: Entry, path: Path) returns (skipped: bool)
      requires Valid()
      modifies `hit, `mounts, `unreadable
      ensures Valid() && (!skipped ==> Now() == old(Now()))
      ensures skipped <==> PassedOver(entry, path, excluded.Keys)
      ensures entry.node.fault in {Fine, Gone} ==> Now() == old(Now())
      ensures skipped ==>
                && Now() == old(Now()).(mounts := mounts, unreadable := unreadable) && mounts >= old(mounts)
                && unreadable >= old(unreadable)
                && (Now().Complete() ==> entry.node.fault == Gone || entry.node.kind == Link || path in excluded)
    {
      if entry.node.fault == Gone {
        return true;
      }
      if entry.node.fault == StatFails {
        unreadable := unreadable + 1;
        return true;
      }
      if entry.node.kind == Link {
        return true;
      }
      if path in excluded {
        hit := hit + {excluded[path]};
        return true;
      }
      if entry.node.fault == OtherDevice {
        mounts := mounts + 1;
        return true;
      }
      return false;
    }

    /** One entry of a folder. */
    method VisitEntry(dir: Path, entry: Entry, name: string) returns (ghost added: seq<Path>)
      requires Valid() && OnDiskOf(entry, dir, isDir)
      requires Placed(dir + [entry.name], isDir) && forall e :: e in excluded ==> !(e <= dir)
      modifies this, ctx
      ensures Walked(name, added, RestOf(entry, dir, excluded.Keys), LinklessOf(entry))
      ensures Went(added, RootsOf(entry, dir, excluded.Keys), FaultlessOf(entry))
      ensures Fit(added, dir, {entry.name})
      decreases entry, 1
    {
      hide Grown, OnDisk, Placed, Rest, Linkless, Blocks, SumSet, RootsIn, UsageIn, Faultless;
      var path := dir + [entry.name];
      added := [];
      ghost var before, most, whole := Now(), RestOf(entry, dir, excluded.Keys), LinklessOf(entry);
      var skipped := Skip(entry, path);
      if skipped {
        NotGrown(before, Now(), name, most, whole);
        return;
      }
      forall e | e in excluded
        ensures !(e <= path)
      {
        PrefixOfSnoc(e, dir, entry.name);
      }
      var holds := false;
      if entry.node.kind == Dir {
        holds := HoldsExcluded(path);
      } else {
        FileHoldsNothing(path);
      }
      if holds {
        added := Descend(dir, entry, name);
      } else {
        RestOfIsAll(entry, dir, excluded.Keys);
        added := MeasureEntry(dir, entry, name);
        GrownAnyway(before, Now(), name, most, whole);
      }
    }

    lemma FileHoldsNothing(path: Path)
      requires Valid() && !isDir(path) && path !in excluded
      ensures NothingUnder(path, excluded.Keys)
    {
      forall e | e in excluded
        ensures !(path <= e)
      {
        assert Placed(e, isDir);
        PrefixTake(path, e);
      }
    }

    lemma FitUp(added: seq<Path>, dir: Path, name: string, names: set<string>)
      requires Fit(added, dir + [name], names)
      ensures Fit(added, dir, {name})
    {
      hide ClearOf, Placed;
      forall r | r in added
        ensures |dir| < |r| && dir <= r && r[|dir|] == name
      {
        assert dir + [name] <= r;
      }
    }

    lemma FitNothing(dir: Path, names: set<string>)
      ensures Fit([], dir, names) && Antichain([])
    {
    }

    /** A folder that holds an excluded path: its own blocks, and then what is in it. */
    method Descend(dir: Path, entry: Entry, name: string) returns (ghost added: seq<Path>)
      requires Valid() && OnDiskOf(entry, dir, isDir) && entry.node.kind == Dir && entry.node.fault != Gone
      requires Placed(dir + [entry.name], isDir) && forall e :: e in excluded ==> !(e <= dir + [entry.name])
      requires !NothingUnder(dir + [entry.name], excluded.Keys) && !PassedOver(entry, dir + [entry.name], excluded.Keys)
      modifies this, ctx
      ensures Walked(name, added, RestOf(entry, dir, excluded.Keys), LinklessOf(entry))
      ensures Went(added, RootsOf(entry, dir, excluded.Keys), FaultlessOf(entry))
      ensures Fit(added, dir, {entry.name})
      decreases entry, 0
    {
      hide Grown, OnDisk, Placed, Rest, Linkless, SumSet, ClearOf, Antichain, Fit, UsageIn, RootsOf, RootsIn,
           PassedOver, NothingUnder, NamesOf, Faultless;
      RootsOfFolder(entry, dir, excluded.Keys);
      var path := dir + [entry.name];
      added := [];
      ghost var before, most, whole := Now(), RestOf(entry, dir, excluded.Keys), LinklessOf(entry);
      Add(name, entry.node.blocks);
      AddGrown(before, Now(), name, entry.node.blocks);
      if entry.node.fault == ListFails {
        ghost var middle := Now();
        unreadable := unreadable + 1;
        FitNothing(dir, {entry.name});
        NotGrown(middle, Now(), name, most - entry.node.blocks, true);
        GrownTwice(before, middle, Now(), name, entry.node.blocks, most - entry.node.blocks, whole);
        return;
      }
      ghost var middle := Now();
      added := Visit(path, entry.node.children, name);
      FitUp(added, dir, entry.name, NamesOf(entry.node.children, |entry.node.children|));
      GrownTwice(before, middle, Now(), name, entry.node.blocks, most - entry.node.blocks, whole);
    }

    /** One entry of those of a folder. */
    method VisitNext(dir: Path, entries: seq<Entry>, i: nat, name: string) returns (ghost added: seq<Path>)
      requires Valid() && OnDisk(entries, dir, isDir) && i < |entries|
      requires Placed(dir, isDir) && isDir(dir) && forall e :: e in excluded ==> !(e <= dir)
      modifies this, ctx
      ensures Walked(name, added, RestOf(entries[i], dir, excluded.Keys), Linkless(entries))
      ensures Went(added, RootsOf(entries[i], dir, excluded.Keys), Faultless(entries))
      ensures Fit(added, dir, {entries[i].name})
      decreases entries, 0
    {
      hide Rest, RestOf, RootsOf, Faultless, FaultlessOf, OnDisk, OnDiskOf, Linkless, LinklessOf, Placed, Grown,
           Antichain, Fit, SumSet;
      DistinctNames(entries, dir, isDir, i);
      PlacedBelow(dir, entries[i].name, isDir);
      if Linkless(entries) {
        LinklessAt(entries, i);
      }
      if Faultless(entries) {
        FaultlessAt(entries, i);
      }
      ghost var before := Now();
      added := VisitEntry(dir, entries[i], name);
      if Linkless(entries) != LinklessOf(entries[i]) {
        GrownWeaker(before, Now(), name, RestOf(entries[i], dir, excluded.Keys));
      }
    }

    /** One entry more, after those of which added is what was measured. */
    method VisitOn(dir: Path, entries: seq<Entry>, i: nat, name: string, ghost added: seq<Path>, ghost done: nat,
                   ghost before: Tally, ghost start: seq<Path>) returns (ghost all: seq<Path>)
      requires Valid() && OnDisk(entries, dir, isDir) && i < |entries|
      requires Placed(dir, isDir) && isDir(dir) && forall e :: e in excluded ==> !(e <= dir)
      requires roots == start + added && Antichain(added) && Fit(added, dir, NamesOf(entries, i))
      requires Grown(before, Now(), name, done, Linkless(entries))
      modifies this, ctx
      ensures Valid() && roots == start + all && Antichain(all) && Fit(all, dir, NamesOf(entries, i + 1))
      ensures Grown(before, Now(), name, done + RestOf(entries[i], dir, excluded.Keys), Linkless(entries))
      ensures !stopped ==> all == added + RootsOf(entries[i], dir, excluded.Keys)
      ensures old(Now()).Complete() && Faultless(entries) && ctx.patience.None? ==> Now().Complete()
      decreases entries, 1
    {
      hide RestOf, RootsOf, Faultless, OnDisk, OnDiskOf, Linkless, Placed, Grown, Antichain, Fit, SumSet, NamesOf,
           UsageIn;
      DistinctNames(entries, dir, isDir, i);
      ghost var middle, sofar := Now(), roots;
      ghost var more := VisitNext(dir, entries, i, name);
      GrownTwice(before, middle, Now(), name, done, RestOf(entries[i], dir, excluded.Keys), Linkless(entries));
      JoinAdded(added, more, dir, entries, i);
      AddedTwice(start, sofar, roots, added, more);
      all := added + more;
    }

    /** The entries of a folder below the first level, all for one group. */
    method Visit(dir: Path, entries: seq<Entry>, name: string) returns (ghost added: seq<Path>)
      requires Valid() && OnDisk(entries, dir, isDir)
      requires Placed(dir, isDir) && isDir(dir) && forall e :: e in excluded ==> !(e <= dir)
      modifies this, ctx
      ensures Walked(name, added, Rest(entries, dir, excluded.Keys), Linkless(entries))
      ensures Went(added, RootsIn(entries, dir, excluded.Keys), Faultless(entries))
      ensures Fit(added, dir, NamesOf(entries, |entries|))
      decreases entries, 2
    {
      hide Rest, RestOf, RootsIn, RootsOf, SoFar, Faultless, FaultlessOf, OnDisk, OnDiskOf, Linkless, LinklessOf,
           Placed, ClearOf, Grown, Antichain, Fit, SumSet, NamesOf, UsageIn;
      added := [];
      ghost var before, paths, whole := Now(), excluded.Keys, Linkless(entries);
      ghost var all := Rest(entries, dir, paths);
      ghost var done: nat := 0;
      NotGrown(before, before, name, 0, whole);
      NothingAdded(dir, entries);
      SoFarNone(entries, dir, paths);
      assert entries[0..] == entries;
      for i := 0 to |entries|
        invariant done + Rest(entries[i..], dir, paths) == all
        invariant !stopped ==> SoFar(added, entries, i, dir, paths)
        invariant old(Now()).Complete() && Faultless(entries) && ctx.patience.None? ==> Now().Complete()
        invariant Valid() && roots == old(roots) + added && Grown(before, Now(), name, done, whole)
        invariant Antichain(added) && Fit(added, dir, NamesOf(entries, i))
      {
        var ended := ctx.Err();
        if stopped || ended {
          GrownStopped(before, Now(), name, done, all, whole);
          stopped := true;
          FitMore(added, dir, entries, i);
          return;
        }
        RestTail(entries, i, dir, paths);
        SoFarMore(added, entries, i, dir, paths);
        added := VisitOn(dir, entries, i, name, added, done, before, old(roots));
        done := done + RestOf(entries[i], dir, paths);
      }
      RestOfNone(entries, dir, paths);
      if !stopped {
        SoFarAll(added, entries, dir, paths);
      }
    }

    /** The whole walk: each entry at the first level is a group of its own. */
    method VisitAll(parent: Path, entries: seq<Entry>)
      requires Valid() && roots == [] && groups == map[] && usage == 0
      requires OnDisk(entries, parent, isDir)
      requires Placed(parent, isDir) && isDir(parent) && forall e :: e in excluded ==> !(e <= parent)
      modifies this, ctx
      ensures Valid() && Antichain(roots) && Fit(roots, parent, NamesOf(entries, |entries|))
      // Never more than what is left of the folder, and all of it when nothing was reported as missing.
      ensures usage <= Rest(entries, parent, excluded.Keys)
      ensures Now().Complete() && Linkless(entries) ==> usage == Rest(entries, parent, excluded.Keys)
      ensures Shared(groups, entries, parent, excluded.Keys, |entries|, Now().Complete() && Linkless(entries))
      ensures Went(roots, RootsIn(entries, parent, excluded.Keys), Faultless(entries))
    {
      hide Rest, RestOf, RootsIn, RootsOf, SoFar, Faultless, FaultlessOf, OnDisk, OnDiskOf, Linkless, LinklessOf,
           Placed, ClearOf, Antichain, Fit, SumSet, Shared, Grown;
      ghost var paths, whole := excluded.Keys, Linkless(entries);
      ghost var all := Rest(entries, parent, paths);
      ghost var done: nat := 0;
      NothingAdded(parent, entries);
      SoFarNone(entries, parent, paths);
      NothingShared(groups, entries, parent, paths, Now().Complete() && whole);
      assert entries[0..] == entries;
      for i := 0 to |entries|
        invariant done + Rest(entries[i..], parent, paths) == all
        invariant !stopped ==> SoFar(roots, entries, i, parent, paths)
        invariant old(Now()).Complete() && Faultless(entries) && ctx.patience.None? ==> Now().Complete()
        invariant Valid() && usage <= done && (Now().Complete() && whole ==> usage == done)
        invariant Antichain(roots) && Fit(roots, parent, NamesOf(entries, i))
        invariant Shared(groups, entries, parent, paths, i, Now().Complete() && whole)
      {
        var ended := ctx.Err();
        if stopped || ended {
          SharedEarly(groups, entries, parent, paths, i, Now().Complete() && whole);
          stopped := true;
          FitMore(roots, parent, entries, i);
          return;
        }
        forall k: nat | k < |entries|
          ensures forall j :: 0 <= j < k ==> entries[j].name != entries[k].name
          ensures OnDiskOf(entries[k], parent, isDir)
        {
          DistinctNames(entries, parent, isDir, k);
        }
        RestTail(entries, i, parent, paths);
        SoFarMore(roots, entries, i, parent, paths);
        ghost var before, added := Now(), roots;
        ghost var more := VisitNext(parent, entries, i, entries[i].name);
        SharedMore(before, Now(), entries, parent, paths, i, whole, whole);
        JoinAdded(added, more, parent, entries, i);
        done := done + RestOf(entries[i], parent, paths);
      }
      RestOfNone(entries, parent, paths);
      if !stopped {
        SoFarAll(roots, entries, parent, paths);
      }
    }
  }
}
