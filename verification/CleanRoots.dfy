// The paths that the candidates of a scan measured: which lie inside which, and that no file is counted twice.
module CleanRoots {
  import opened Folds
  import opened CleanWalk

  /** A candidate as the scan finds it: where it is, if it is found; whether its folder is measured entry by entry, and
      then what is listed there, if it can be listed, and whether only some of the entries are wanted; and what a
      measurement of all of it says, if it does not fail. */
  datatype Spec = Spec(id: string, path: Option<Path>, grouped: bool, listing: Option<seq<Entry>>, filtered: bool,
                       told: Option<CleanWalk.Scan>)

  /** What the scan says of a candidate; counted when there is a usage, complete when nothing of it is missing. */
  datatype Item = Item(id: string, path: Path, grouped: bool, roots: seq<Path>, counted: bool, usage: nat,
                       complete: bool, inside: Option<string>)

  datatype Root = Root(path: Path, id: string)

  /** An item lies in a path that another measured; a folder measured entry by entry also when it is that path. */
  predicate InsideRoots(item: Item, other: Item) {
    exists root :: root in other.roots && Within(item, root)
  }

  predicate Within(item: Item, root: Path) {
    root <= item.path && (item.grouped || item.path != root)
  }

  /** Item i lies in what item o measured. */
  ghost predicate Holder(items: seq<Item>, i: nat, o: nat)
    requires i < |items| && o < |items|
  {
    o != i && items[i].counted && items[o].counted && InsideRoots(items[i], items[o])
  }

  ghost predicate Held(items: seq<Item>, i: nat)
    requires i < |items|
  {
    exists o: nat :: o < |items| && Holder(items, i, o)
  }

  ghost predicate Top(items: seq<Item>, i: nat)
    requires i < |items|
  {
    items[i].counted && items[i].inside.None?
  }

  /** What the scan sees to, in whatever order the candidates come: roots are those of one path, or of entries below it;
      and those of an entry-by-entry candidate are nested with none before. */
  ghost predicate Own(item: Item) {
    if item.grouped then Antichain(item.roots) && forall r :: r in item.roots ==> item.path < r
    else item.roots == [] || item.roots == [item.path]
  }

  ghost predicate Laid(items: seq<Item>) {
    && (forall i :: 0 <= i < |items| ==> Own(items[i]))
    && (forall i, j :: 0 <= i < j < |items| ==> Follows(items[i], items[j]))
  }

  ghost predicate Follows(earlier: Item, later: Item) {
    forall a, b :: a in earlier.roots && b in later.roots ==> if later.grouped then Apart(a, b) else a != b
  }

  ghost predicate Marked(items: seq<Item>) {
    forall i: nat :: i < |items| ==> (items[i].inside.Some? <==> Held(items, i))
  }

  /** No two counted candidates that lie in no other share a path. */
  ghost predicate Disjoint(items: seq<Item>) {
    forall i: nat, j: nat, a, b ::
      i < j < |items| && Top(items, i) && Top(items, j) && a in items[i].roots && b in items[j].roots ==> Apart(a, b)
  }

  /** A single path between the folder of an entry-by-entry candidate and something measured below it. */
  ghost predicate BetweenAt(items: seq<Item>, s: nat, g: nat, r: Path) {
    && s < |items| && g < |items| && Top(items, s) && Top(items, g) && !items[s].grouped && items[g].grouped
    && r in items[g].roots && items[s].roots != [] && items[g].path < items[s].path < r
  }

  ghost predicate Between(items: seq<Item>) {
    exists s: nat, g: nat, r: Path :: BetweenAt(items, s, g, r)
  }

  ghost predicate SinglesFirst(items: seq<Item>) {
    forall i, j :: 0 <= i < j < |items| && items[i].grouped ==> items[j].grouped
  }

  lemma PathsAbove(a: Path, b: Path, c: Path)
    requires a <= c && b <= c
    ensures a <= b || b <= a
  {
    assert a == c[..|a|] && b == c[..|b|];
    if |a| <= |b| {
      assert b[..|a|] == a;
    } else {
      assert a[..|b|] == b;
    }
  }

  /** Two nested roots of candidates that lie in no other: the upper one is a single path in between. */
  lemma NestedIsBetween(items: seq<Item>, i: nat, j: nat, a: Path, b: Path)
    requires Laid(items) && Marked(items) && i < |items| && j < |items| && i != j
    requires Top(items, i) && Top(items, j) && a in items[i].roots && b in items[j].roots && a <= b
    ensures BetweenAt(items, i, j, b)
  {
    var x, y := items[i], items[j];
    assert Own(x) && Own(y);
    assert !Holder(items, j, i) && !Holder(items, i, j);
    assert !Within(y, a);
    assert i < j ==> Follows(x, y);
    assert j < i ==> Follows(y, x);
    assert !Apart(a, b) && !Apart(b, a);
    assert y.grouped;
    assert j < i && !x.grouped;
    PathsAbove(a, y.path, b);
  }

  /** No file is counted twice, exactly when there is no such path. */
  lemma NoDoubleCounting(items: seq<Item>)
    requires Laid(items) && Marked(items)
    ensures Disjoint(items) <==> !Between(items)
  {
    if Between(items) {
      var s: nat, g: nat, r: Path :| BetweenAt(items, s, g, r);
      var p := items[s].path;
      assert Own(items[s]);
      assert p in items[s].roots && !Apart(p, r) && !Apart(r, p);
      assert !Disjoint(items);
    } else {
      forall i: nat, j: nat, a, b | i < j < |items| && Top(items, i) && Top(items, j) && a in items[i].roots
        && b in items[j].roots
        ensures Apart(a, b)
      {
        if a <= b {
          NestedIsBetween(items, i, j, a, b);
        } else if b <= a {
          NestedIsBetween(items, j, i, b, a);
        }
      }
    }
  }

  /** Such a path is measured later than what is below it. */
  lemma BetweenIsLate(items: seq<Item>, s: nat, g: nat, r: Path)
    requires Laid(items) && BetweenAt(items, s, g, r)
    ensures g < s
  {
    var p := items[s].path;
    assert Own(items[s]);
    assert p in items[s].roots && !Apart(p, r);
    assert s < g ==> Follows(items[s], items[g]);
  }

  /** When the single paths come first there is none. */
  lemma SinglesFirstIsEnough(items: seq<Item>)
    requires Laid(items) && Marked(items) && SinglesFirst(items)
    ensures Disjoint(items)
  {
    forall s: nat, g: nat, r: Path | BetweenAt(items, s, g, r)
      ensures g < s
    {
      BetweenIsLate(items, s, g, r);
    }
    NoDoubleCounting(items);
  }

  /** Whatever the order, each path measured for a counted candidate is under one that is counted in the totals. */
  lemma {:induction false} NothingLost(items: seq<Item>, i: nat, r: Path) returns (t: nat, q: Path)
    requires Laid(items) && Marked(items) && i < |items| && items[i].counted && r in items[i].roots
    ensures t < |items| && Top(items, t) && q in items[t].roots && q <= r
    decreases |r|
  {
    if Top(items, i) {
      return i, r;
    }
    assert Held(items, i) && Own(items[i]);
    var o: nat :| o < |items| && Holder(items, i, o);
    var root :| root in items[o].roots && Within(items[i], root);
    assert root < r;
    t, q := NothingLost(items, o, root);
  }

  // The scan.

  ghost predicate Listed(roots: seq<Root>, items: seq<Item>) {
    && (forall k :: 0 <= k < |roots| ==> exists i :: 0 <= i < |items| && roots[k].path in items[i].roots)
    && (forall i, p :: 0 <= i < |items| && p in items[i].roots ==> exists k :: 0 <= k < |roots| && roots[k].path == p)
  }

  /** The paths of a candidate are on the disk that isDir describes. */
  ghost predicate SpecOnDisk(spec: Spec, isDir: Path -> bool) {
    spec.path.Some? ==>
      && Placed(spec.path.value, isDir)
      && (spec.grouped && spec.listing.Some? ==>
           isDir(spec.path.value) && OnDisk(spec.listing.value, spec.path.value, isDir))
  }

  /** What a new item measured is nested with nothing before it, or at least is not the same. */
  ghost predicate New(item: Item, roots: seq<Root>) {
    && Own(item)
    && forall k, p :: 0 <= k < |roots| && p in item.roots ==>
         if item.grouped then Apart(roots[k].path, p) else roots[k].path != p
  }

  ghost function PathsOf(roots: seq<Root>): set<Path> {
    set k | 0 <= k < |roots| :: roots[k].path
  }

  lemma PathIn(roots: seq<Root>, k: nat)
    requires k < |roots|
    ensures roots[k].path in PathsOf(roots)
  {
  }

  lemma PathsMore(roots: seq<Root>, item: Item)
    ensures PathsOf(roots + Rooted(item)) == PathsOf(roots) + Elements(item.roots)
  {
    hide Rooted;
    RootedPaths(item);
    var all := roots + Rooted(item);
    forall k | 0 <= k < |roots| ensures roots[k].path in PathsOf(all) {
      assert all[k] == roots[k];
    }
    forall p | p in item.roots ensures p in PathsOf(all) {
      var m :| 0 <= m < |item.roots| && item.roots[m] == p;
      assert all[|roots| + m] == Rooted(item)[m];
    }
    forall k | 0 <= k < |all| ensures all[k].path in PathsOf(roots) + Elements(item.roots) {
      if k < |roots| {
        PathIn(roots, k);
      } else {
        assert all[k] == Rooted(item)[k - |roots|];
        assert item.roots[k - |roots|] in item.roots;
      }
    }
  }

  /** The item is the candidate's. */
  ghost predicate Labelled(item: Item, spec: Spec) {
    item.id == spec.id && item.grouped == spec.grouped && item.inside == None
  }

  // What a scan in which nothing fails measures.

  ghost predicate Covers(path: Path, homes: seq<Path>) {
    exists home :: home in homes && path <= home
  }

  /** The paths of a candidate, when those before it have measured the taken ones. */
  ghost function RootsFor(spec: Spec, taken: set<Path>, homes: seq<Path>): seq<Path> {
    if spec.path.None? || Covers(spec.path.value, homes) then []
    else if spec.grouped then
      if Unlisted(spec, taken) then []
      else RootsIn(spec.listing.value, spec.path.value, Beneath(taken, spec.path.value))
    else if spec.path.value in taken then [] else [spec.path.value]
  }

  /** A folder that is not looked into: measured before, not listed, or with none of the entries that are wanted. */
  ghost predicate Unlisted(spec: Spec, taken: set<Path>)
    requires spec.path.Some?
  {
    (exists p :: p in taken && p <= spec.path.value) || spec.listing.None?
      || (spec.filtered && spec.listing.value == [])
  }

  ghost function Beneath(taken: set<Path>, parent: Path): set<Path> {
    set p | p in taken && parent < p
  }

  /** Whether there is a usage to count. */
  ghost predicate CountedFor(spec: Spec, taken: set<Path>, homes: seq<Path>) {
    && spec.path.Some? && !Covers(spec.path.value, homes)
    && if spec.grouped then !Unlisted(spec, taken)
       else spec.path.value !in taken && spec.told.Some? && !spec.told.value.rootUnreadable
  }

  /** What the first n candidates measure. */
  ghost function TakenBy(specs: seq<Spec>, n: nat, homes: seq<Path>): set<Path>
    requires n <= |specs|
  {
    if n == 0 then {}
      else TakenBy(specs, n - 1, homes) + Elements(RootsFor(specs[n - 1], TakenBy(specs, n - 1, homes), homes))
  }

  ghost predicate FaultlessSpec(spec: Spec) {
    spec.grouped && spec.listing.Some? ==> Faultless(spec.listing.value)
  }

  /** The item is what the scan makes of the candidate: the paths measured, whether it counts, and its usage. */
  ghost predicate MadeOf(item: Item, spec: Spec, taken: set<Path>, homes: seq<Path>) {
    && item.grouped == spec.grouped
    && item.roots == RootsFor(spec, taken, homes)
    && item.path == (if spec.path.Some? then spec.path.value else [])
    && (item.counted <==> CountedFor(spec, taken, homes))
    && (item.counted && !spec.grouped ==> item.usage == spec.told.value.total)
    && (item.counted && spec.grouped && Linkless(spec.listing.value) ==>
          item.usage == Rest(spec.listing.value, item.path, Beneath(taken, item.path)))
  }

  ghost predicate Made(items: seq<Item>, specs: seq<Spec>, n: nat, homes: seq<Path>)
    requires |items| == n <= |specs|
  {
    forall i :: 0 <= i < n ==> MadeOf(items[i], specs[i], TakenBy(specs, i, homes), homes)
  }

  // The condition under which no file is counted twice, read off the candidates.

  ghost function WillMeasure(specs: seq<Spec>, i: nat, homes: seq<Path>): seq<Path>
    requires i < |specs|
  {
    RootsFor(specs[i], TakenBy(specs, i, homes), homes)
  }

  ghost predicate WillCount(specs: seq<Spec>, i: nat, homes: seq<Path>)
    requires i < |specs|
  {
    CountedFor(specs[i], TakenBy(specs, i, homes), homes)
  }

  function Place(spec: Spec): Path {
    if spec.path.Some? then spec.path.value else []
  }

  /** Candidate i lies in what candidate o will measure. */
  ghost predicate WillHold(specs: seq<Spec>, i: nat, o: nat, homes: seq<Path>)
    requires i < |specs| && o < |specs|
  {
    && o != i && WillCount(specs, i, homes) && WillCount(specs, o, homes)
    && exists root ::
         && root in WillMeasure(specs, o, homes) && root <= Place(specs[i])
         && (specs[i].grouped || Place(specs[i]) != root)
  }

  ghost predicate WillStand(specs: seq<Spec>, i: nat, homes: seq<Path>)
    requires i < |specs|
  {
    WillCount(specs, i, homes) && forall o: nat :: o < |specs| ==> !WillHold(specs, i, o, homes)
  }

  ghost predicate WillComeBetween(specs: seq<Spec>, homes: seq<Path>, s: nat, g: nat, r: Path) {
    && s < |specs| && g < |specs| && WillStand(specs, s, homes) && WillStand(specs, g, homes)
    && !specs[s].grouped && specs[g].grouped && WillMeasure(specs, s, homes) != []
    && r in WillMeasure(specs, g, homes) && Place(specs[g]) < Place(specs[s]) < r
  }

  /** A single path between the folder of an entry-by-entry candidate and something that will be measured below it. */
  ghost predicate Misplaced(specs: seq<Spec>, homes: seq<Path>) {
    exists s: nat, g: nat, r: Path :: WillComeBetween(specs, homes, s, g, r)
  }

  lemma MadeItem(items: seq<Item>, specs: seq<Spec>, homes: seq<Path>, i: nat)
    requires |items| == |specs| && Made(items, specs, |specs|, homes) && i < |specs|
    ensures items[i].grouped == specs[i].grouped && items[i].path == Place(specs[i])
    ensures items[i].roots == WillMeasure(specs, i, homes) && (items[i].counted <==> WillCount(specs, i, homes))
  {
    hide RootsFor, CountedFor, TakenBy;
  }

  lemma HoldersFit(items: seq<Item>, specs: seq<Spec>, homes: seq<Path>, i: nat, o: nat)
    requires |items| == |specs| && Made(items, specs, |specs|, homes) && i < |specs| && o < |specs|
    ensures Holder(items, i, o) <==> WillHold(specs, i, o, homes)
  {
    hide WillMeasure, WillCount, Made, Place;
    MadeItem(items, specs, homes, i);
    MadeItem(items, specs, homes, o);
    if WillHold(specs, i, o, homes) {
      var root :| root in WillMeasure(specs, o, homes) && root <= Place(specs[i])
        && (specs[i].grouped || Place(specs[i]) != root);
      assert root in items[o].roots && Within(items[i], root);
    }
  }

  lemma TopsFit(items: seq<Item>, specs: seq<Spec>, homes: seq<Path>, i: nat)
    requires |items| == |specs| && Made(items, specs, |specs|, homes) && Marked(items) && i < |specs|
    ensures Top(items, i) <==> WillStand(specs, i, homes)
  {
    hide WillMeasure, WillCount, Made, Holder, WillHold;
    MadeItem(items, specs, homes, i);
    forall o: nat | o < |specs|
      ensures Holder(items, i, o) <==> WillHold(specs, i, o, homes)
    {
      HoldersFit(items, specs, homes, i, o);
    }
    assert items[i].inside.Some? <==> Held(items, i);
  }

  lemma BetweenFits(items: seq<Item>, specs: seq<Spec>, homes: seq<Path>, s: nat, g: nat, r: Path)
    requires |items| == |specs| && Made(items, specs, |specs|, homes) && Marked(items)
    ensures BetweenAt(items, s, g, r) <==> WillComeBetween(specs, homes, s, g, r)
  {
    hide WillMeasure, WillStand, Made, Top, Marked;
    if s < |specs| && g < |specs| {
      MadeItem(items, specs, homes, s);
      MadeItem(items, specs, homes, g);
      TopsFit(items, specs, homes, s);
      TopsFit(items, specs, homes, g);
    }
  }

  /** When nothing fails, no file is counted twice if and only if no single candidate will come between an
      entry-by-entry one and something measured below it. */
  lemma NoneMisplaced(items: seq<Item>, specs: seq<Spec>, homes: seq<Path>)
    requires |items| == |specs| && Laid(items) && Marked(items) && Made(items, specs, |specs|, homes)
    ensures Disjoint(items) <==> !Misplaced(specs, homes)
  {
    hide Laid, Marked, Made, Disjoint, BetweenAt, WillComeBetween;
    NoDoubleCounting(items);
    forall s: nat, g: nat, r: Path
      ensures BetweenAt(items, s, g, r) <==> WillComeBetween(specs, homes, s, g, r)
    {
      BetweenFits(items, specs, homes, s, g, r);
    }
  }

  class Scanner {
    const ctx: Context
    const homes: seq<Path>
    ghost const isDir: Path -> bool
    var roots: seq<Root>

    ghost predicate Valid()
      reads this
    {
      forall k :: 0 <= k < |roots| ==> Placed(roots[k].path, isDir)
    }

    constructor (ctx: Context, homes: seq<Path>, ghost isDir: Path -> bool)
      ensures Valid() && roots == [] && this.ctx == ctx && this.isDir == isDir && this.homes == homes
    {
      this.ctx := ctx;
      this.homes := homes;
      this.isDir := isDir;
      roots := [];
    }

    /** One candidate. */
    method MeasureOne(spec: Spec) returns (item: Item)
      requires Valid() && SpecOnDisk(spec, isDir)
      modifies this, ctx
      ensures Valid() && New(item, old(roots)) && item.inside == None && item.grouped == spec.grouped
      ensures item.id == spec.id
      ensures roots == old(roots) + Rooted(item)
      ensures item.counted ==> spec.path == Some(item.path)
      // A home, or what is above one, is not measured, nor is the same path twice.
      ensures spec.path.None? || (exists home :: home in homes && spec.path.value <= home) ==>
                item.roots == [] && !item.counted
      ensures !spec.grouped && spec.path.Some? &&
              (exists k :: 0 <= k < |old(roots)| && old(roots)[k].path == spec.path.value) ==>
                !item.counted
      ensures ctx.patience.None? && FaultlessSpec(spec) ==> MadeOf(item, spec, PathsOf(old(roots)), homes)
    {
      item := Item(spec.id, if spec.path.Some? then spec.path.value else [], spec.grouped, [], false, 0, false, None);
      if spec.path.None? || exists home :: home in homes && spec.path.value <= home {
        return;
      }
      if spec.grouped {
        item := MeasureChildren(spec, item);
        return;
      }
      if exists k :: 0 <= k < |roots| && roots[k].path == spec.path.value {
        ghost var k :| 0 <= k < |roots| && roots[k].path == spec.path.value;
        PathIn(roots, k);
        return;
      }
      roots := roots + [Root(item.path, item.id)];
      item := item.(roots := [item.path]);
      if spec.told.Some? && !spec.told.value.rootUnreadable {
        item := item.(counted := true, usage := spec.told.value.total, complete := spec.told.value.Complete());
      }
    }

    /** A candidate whose folder is measured entry by entry, around what was measured before. */
    method MeasureChildren(spec: Spec, start: Item) returns (item: Item)
      requires Valid() && SpecOnDisk(spec, isDir) && spec.grouped && spec.path == Some(start.path)
      requires start.grouped && start.roots == [] && !start.counted
      modifies this, ctx
      ensures Valid() && New(item, old(roots))
      ensures item == start.(roots := item.roots, counted := item.counted, usage := item.usage,
                complete := item.complete)
      // What is below the folder and was not measured before, or less when something is missing.
      ensures item.counted ==>
                && spec.listing.Some?
                && item.usage <= Rest(spec.listing.value, start.path, Beneath(PathsOf(old(roots)), start.path))
      ensures item.counted && item.complete && Linkless(spec.listing.value) ==>
                item.usage == Rest(spec.listing.value, start.path, Beneath(PathsOf(old(roots)), start.path))
      ensures roots == old(roots) + Rooted(item)
      ensures item.counted <==> !Unlisted(spec, PathsOf(old(roots)))
      ensures !item.counted ==> item.roots == []
      ensures item.counted && ctx.patience.None? && Faultless(spec.listing.value) ==>
                && item.complete
                && item.roots == RootsIn(spec.listing.value, start.path, Beneath(PathsOf(old(roots)), start.path))
    {
      hide Rest, RootsIn, Linkless, Faultless, Shared, OnDisk, Antichain, ClearOf, PathsOf, Beneath, Placed, Unlisted,
           New;
      item := start;
      var parent := start.path;
      NothingNew(start, roots);
      UnlistedIs(spec, roots);
      if exists k :: 0 <= k < |roots| && roots[k].path <= parent {
        return;
      }
      if spec.listing.None? || (spec.filtered && spec.listing.value == []) {
        return;
      }
      var excluded: map<Path, string> := map[];
      for k := 0 to |roots|
        invariant forall p :: p in excluded <==> exists i :: 0 <= i < k && roots[i].path == p && parent < p
      {
        if roots[k].path != parent && parent <= roots[k].path {
          excluded := excluded[roots[k].path := roots[k].id];
        }
      }
      var walk := new ChildWalk(ctx, excluded, isDir);
      walk.VisitAll(parent, spec.listing.value);
      ghost var names := NamesOf(spec.listing.value, |spec.listing.value|);
      item := item.(roots := walk.roots, counted := true, usage := walk.usage,
                    complete := !walk.stopped && walk.mounts == 0 && walk.unreadable == 0);
      ExcludedAre(roots, parent, excluded.Keys);
      MeasuredApart(roots, parent, item.roots);
      NewAround(item, roots);
      roots := roots + Rooted(item);
    }

    /** The next candidate, of which nothing is measured once the scan has ended. */
    method MeasureNext(spec: Spec) returns (item: Item)
      requires Valid() && SpecOnDisk(spec, isDir)
      modifies this, ctx
      ensures Valid() && New(item, old(roots)) && roots == old(roots) + Rooted(item) && Labelled(item, spec)
      ensures ctx.patience.None? && FaultlessSpec(spec) ==> MadeOf(item, spec, PathsOf(old(roots)), homes)
    {
      hide SpecOnDisk, MadeOf, FaultlessSpec, PathsOf, Placed, New, Rooted;
      var ended := ctx.Err();
      item := Item(spec.id, [], spec.grouped, [], false, 0, false, None);
      NothingNew(item, roots);
      if !ended {
        item := MeasureOne(spec);
      }
    }

    /** The candidates one after the other. */
    method MeasureAll(specs: seq<Spec>) returns (found: seq<Item>)
      requires Valid() && roots == []
      requires forall i :: 0 <= i < |specs| ==> SpecOnDisk(specs[i], isDir)
      modifies this, ctx
      ensures |found| == |specs| && Laid(found) && forall i :: 0 <= i < |specs| ==> Labelled(found[i], specs[i])
      ensures ctx.patience.None? && (forall i :: 0 <= i < |specs| ==> FaultlessSpec(specs[i])) ==>
                Made(found, specs, |specs|, homes)
    {
      hide Laid, Listed, New, Rooted, SpecOnDisk, MadeOf, FaultlessSpec, PathsOf, Elements, Made, TakenBy, Placed,
           Labelled;
      ghost var smooth := ctx.patience.None? && forall i :: 0 <= i < |specs| ==> FaultlessSpec(specs[i]);
      NothingLaid();
      NothingMade(specs, homes);
      found := [];
      for k := 0 to |specs|
        invariant Valid() && |found| == k && Laid(found) && Listed(roots, found)
        invariant forall i :: 0 <= i < k ==> Labelled(found[i], specs[i])
        invariant smooth ==> PathsOf(roots) == TakenBy(specs, k, homes) && Made(found, specs, k, homes)
      {
        ghost var before := roots;
        var item := MeasureNext(specs[k]);
        LaidMore(found, item, before);
        PathsMore(before, item);
        if smooth {
          MadeMore(found, item, specs, k, homes);
        }
        found := found + [item];
      }
    }

    /** The whole scan. */
    method Scan(specs: seq<Spec>) returns (items: array<Item>)
      requires Valid() && roots == []
      requires forall i :: 0 <= i < |specs| ==> SpecOnDisk(specs[i], isDir)
      modifies this, ctx
      ensures fresh(items) && items.Length == |specs|
      ensures forall i :: 0 <= i < |specs| ==> items[i].id == specs[i].id && items[i].grouped == specs[i].grouped
      ensures Laid(items[..]) && Marked(items[..])
      // Counted once, and nothing measured is left out of the totals.
      ensures Disjoint(items[..]) <==> !Between(items[..])
      ensures (forall i, j :: 0 <= i < j < |specs| && specs[i].grouped ==> specs[j].grouped) ==> Disjoint(items[..])
      // When nothing fails, what is measured depends on the candidates alone.
      ensures ctx.patience.None? && (forall i :: 0 <= i < |specs| ==> FaultlessSpec(specs[i])) ==>
                Made(items[..], specs, |specs|, homes) && (Disjoint(items[..]) <==> !Misplaced(specs, homes))
    {
      hide Laid, SpecOnDisk, Disjoint, Between, Marked, Made, FaultlessSpec, Misplaced;
      ghost var smooth := ctx.patience.None? && forall i :: 0 <= i < |specs| ==> FaultlessSpec(specs[i]);
      var found := MeasureAll(specs);
      items := new Item[|found|](i requires 0 <= i < |found| => found[i]);
      assert items[..] == found;
      MarkInside(items);
      LaidAnyway(found, items[..]);
      if smooth {
        MadeAnyway(found, items[..], specs, homes);
        NoneMisplaced(items[..], specs, homes);
      }
      NoDoubleCounting(items[..]);
      if forall i, j :: 0 <= i < j < |specs| && specs[i].grouped ==> specs[j].grouped {
        assert SinglesFirst(items[..]);
        SinglesFirstIsEnough(items[..]);
      }
    }
  }

  lemma ExcludedAre(roots: seq<Root>, parent: Path, excluded: set<Path>)
    requires forall p :: p in excluded <==> exists i :: 0 <= i < |roots| && roots[i].path == p && parent < p
    ensures excluded == Beneath(PathsOf(roots), parent)
  {
    forall p | p in Beneath(PathsOf(roots), parent) ensures p in excluded {
      var k :| 0 <= k < |roots| && roots[k].path == p;
    }
  }

  /** What is measured around the paths beneath a folder is nested with no path, when none is the folder or above it. */
  lemma MeasuredApart(roots: seq<Root>, parent: Path, measured: seq<Path>)
    requires forall k :: 0 <= k < |roots| ==> !(roots[k].path <= parent)
    requires forall r :: r in measured ==> parent <= r && ClearOf(r, Beneath(PathsOf(roots), parent))
    ensures forall k, p :: 0 <= k < |roots| && p in measured ==> Apart(roots[k].path, p)
  {
    hide Apart;
    forall k, p | 0 <= k < |roots| && p in measured
      ensures Apart(roots[k].path, p)
    {
      var q := roots[k].path;
      PathIn(roots, k);
      if parent <= q {
        assert q in Beneath(PathsOf(roots), parent) && Apart(p, q);
        ApartTurned(p, q);
      } else {
        NotUnder(q, parent);
        ApartAbove(q, parent, p);
      }
    }
  }

  lemma NewAround(item: Item, roots: seq<Root>)
    requires item.grouped && Antichain(item.roots) && forall r :: r in item.roots ==>
               |item.path| < |r| && item.path <= r
    requires forall k, p :: 0 <= k < |roots| && p in item.roots ==> Apart(roots[k].path, p)
    ensures New(item, roots)
  {
    hide Apart;
  }

  lemma UnlistedIs(spec: Spec, roots: seq<Root>)
    requires spec.path.Some?
    ensures Unlisted(spec, PathsOf(roots)) <==>
              (exists k :: 0 <= k < |roots| && roots[k].path <= spec.path.value)
              || spec.listing.None? || (spec.filtered && spec.listing.value == [])
  {
    forall k | 0 <= k < |roots|
      ensures roots[k].path in PathsOf(roots)
    {
      PathIn(roots, k);
    }
  }

  lemma ApartTurned(p: Path, q: Path)
    requires Apart(p, q)
    ensures Apart(q, p)
  {
  }

  lemma NotUnder(q: Path, parent: Path)
    requires !(parent <= q) && !(q <= parent)
    ensures Apart(q, parent)
  {
  }

  lemma NothingMade(specs: seq<Spec>, homes: seq<Path>)
    ensures PathsOf([]) == TakenBy(specs, 0, homes) && Made([], specs, 0, homes)
  {
  }

  lemma MadeMore(found: seq<Item>, item: Item, specs: seq<Spec>, k: nat, homes: seq<Path>)
    requires |found| == k < |specs| && Made(found, specs, k, homes)
    requires MadeOf(item, specs[k], TakenBy(specs, k, homes), homes)
    ensures Made(found + [item], specs, k + 1, homes)
    ensures TakenBy(specs, k + 1, homes) == TakenBy(specs, k, homes) + Elements(item.roots)
  {
    hide RootsFor, CountedFor, MadeOf, Elements, TakenBy;
    TakenMore(specs, k, homes);
    MadeOfRoots(item, specs[k], TakenBy(specs, k, homes), homes);
    forall i | 0 <= i < k
      ensures MadeOf((found + [item])[i], specs[i], TakenBy(specs, i, homes), homes)
    {
      assert MadeOf(found[i], specs[i], TakenBy(specs, i, homes), homes);
    }
  }

  lemma TakenMore(specs: seq<Spec>, k: nat, homes: seq<Path>)
    requires k < |specs|
    ensures TakenBy(specs, k + 1, homes)
            == TakenBy(specs, k, homes) + Elements(RootsFor(specs[k], TakenBy(specs, k, homes), homes))
  {
    hide RootsFor, Elements;
  }

  lemma MadeOfRoots(item: Item, spec: Spec, taken: set<Path>, homes: seq<Path>)
    requires MadeOf(item, spec, taken, homes)
    ensures item.roots == RootsFor(spec, taken, homes)
  {
    hide RootsFor, CountedFor;
  }

  lemma MadeAnyway(before: seq<Item>, after: seq<Item>, specs: seq<Spec>, homes: seq<Path>)
    requires |before| == |after| == |specs| && Made(before, specs, |specs|, homes)
    requires forall i :: 0 <= i < |after| ==> after[i] == before[i].(inside := after[i].inside)
    ensures Made(after, specs, |specs|, homes)
  {
    hide RootsFor, CountedFor, TakenBy;
    assert forall i :: 0 <= i < |after| ==> MadeOf(before[i], specs[i], TakenBy(specs, i, homes), homes);
  }

  lemma NothingLaid()
    ensures Laid([]) && Listed([], [])
  {
  }

  lemma NothingNew(item: Item, roots: seq<Root>)
    requires item.roots == []
    ensures New(item, roots) && roots == roots + Rooted(item)
  {
  }

  lemma ApartAbove(q: Path, parent: Path, p: Path)
    requires parent <= p
    ensures Apart(q, parent) ==> Apart(q, p)
  {
    if q <= p {
      PathsAbove(q, parent, p);
    }
  }

  lemma LaidMore(items: seq<Item>, item: Item, roots: seq<Root>)
    requires Laid(items) && Listed(roots, items) && New(item, roots)
    ensures Laid(items + [item]) && Listed(roots + Rooted(item), items + [item])
  {
    hide Listed;
    forall i | 0 <= i < |items|
      ensures Follows(items[i], item)
    {
      NewFollows(items, i, item, roots);
    }
    ListedMore(items, item, roots);
  }

  lemma NewFollows(items: seq<Item>, i: nat, item: Item, roots: seq<Root>)
    requires i < |items| && Listed(roots, items) && New(item, roots)
    ensures Follows(items[i], item)
  {
    forall a, b | a in items[i].roots && b in item.roots
      ensures if item.grouped then Apart(a, b) else a != b
    {
      var k :| 0 <= k < |roots| && roots[k].path == a;
    }
  }

  lemma ListedMore(items: seq<Item>, item: Item, roots: seq<Root>)
    requires Listed(roots, items)
    ensures Listed(roots + Rooted(item), items + [item])
  {
    var more, all := items + [item], roots + Rooted(item);
    hide Rooted;
    RootedPaths(item);
    assert more[|items|] == item;
    forall k | 0 <= k < |all|
      ensures exists i :: 0 <= i < |more| && all[k].path in more[i].roots
    {
      if k < |roots| {
        var i :| 0 <= i < |items| && roots[k].path in items[i].roots;
        assert all[k] == roots[k] && more[i] == items[i];
      } else {
        assert all[k] == Rooted(item)[k - |roots|];
        assert all[k].path in more[|items|].roots;
      }
    }
    forall i, p | 0 <= i < |more| && p in more[i].roots
      ensures exists k :: 0 <= k < |all| && all[k].path == p
    {
      if i < |items| {
        assert p in items[i].roots;
        var k :| 0 <= k < |roots| && roots[k].path == p;
        assert all[k].path == p;
      } else {
        var m :| 0 <= m < |item.roots| && item.roots[m] == p;
        assert all[|roots| + m] == Rooted(item)[m];
      }
    }
  }

  lemma RootedPaths(item: Item)
    ensures |Rooted(item)| == |item.roots|
    ensures forall m :: 0 <= m < |item.roots| ==> Rooted(item)[m].path == item.roots[m]
  {
  }

  /** Marking an item changes nothing else. */
  lemma LaidAnyway(before: seq<Item>, after: seq<Item>)
    requires Laid(before) && |after| == |before|
    requires forall i :: 0 <= i < |after| ==> after[i] == before[i].(inside := after[i].inside)
    ensures Laid(after)
  {
    forall i, j | 0 <= i < j < |after|
      ensures Follows(after[i], after[j])
    {
      assert Follows(before[i], before[j]);
    }
    assert forall i :: 0 <= i < |after| ==>
      Own(before[i]) && after[i].roots == before[i].roots && after[i].path == before[i].path;
  }

  lemma HolderAnyway(before: seq<Item>, after: seq<Item>)
    requires |after| == |before|
    requires forall i :: 0 <= i < |after| ==> after[i] == before[i].(inside := after[i].inside)
    ensures forall i: nat, o: nat :: i < |after| && o < |after| ==> (Holder(before, i, o) <==> Holder(after, i, o))
  {
  }

  /** The first other item that measured where an item lies. */
  method FirstOther(items: array<Item>, index: nat) returns (found: Option<nat>)
    requires index < items.Length && items[index].counted
    ensures match found
            case Some(o) => o < items.Length && Holder(items[..], index, o) && forall p: nat :: p < o ==>
              !Holder(items[..], index, p)
            case None => forall p: nat :: p < items.Length ==> !Holder(items[..], index, p)
  {
    for other := 0 to items.Length
      invariant forall p: nat :: p < other ==> !Holder(items[..], index, p)
    {
      if other != index && items[other].counted && InsideRoots(items[index], items[other]) {
        return Some(other);
      }
    }
    return None;
  }

  /** Marks each counted item that lies in what another measured with the first such other. */
  method MarkInside(items: array<Item>)
    requires forall i :: 0 <= i < items.Length ==> items[i].inside == None
    modifies items
    ensures forall i :: 0 <= i < items.Length ==> items[i] == old(items[i]).(inside := items[i].inside)
    ensures Marked(items[..])
    ensures forall i: nat, o: nat :: i < items.Length && o < items.Length && Holder(items[..], i, o)
              && (forall p: nat :: p < o ==> !Holder(items[..], i, p))
              ==> items[i].inside == Some(items[o].id)
  {
    hide Holder;
    ghost var before := items[..];
    for index := 0 to items.Length
      invariant forall i :: 0 <= i < items.Length ==> items[i] == before[i].(inside := items[i].inside)
      invariant forall i :: index <= i < items.Length ==> items[i] == before[i]
      invariant forall i: nat :: i < index ==> MarkedAt(before, i, items[i].inside)
    {
      HolderAnyway(before, items[..]);
      if items[index].counted {
        var other := FirstOther(items, index);
        if other.Some? {
          FirstHolder(before, index, other.value);
          items[index] := items[index].(inside := Some(items[other.value].id));
        } else {
          forall p: nat | p < items.Length
            ensures !Holder(before, index, p)
          {
            assert !Holder(items[..], index, p);
          }
          NoneIsNotHeld(before, index);
        }
      } else {
        UncountedIsNotHeld(before, index);
      }
    }
    HolderAnyway(before, items[..]);
  }

  lemma NoneIsNotHeld(items: seq<Item>, i: nat)
    requires i < |items| && forall p: nat :: p < |items| ==> !Holder(items, i, p)
    ensures MarkedAt(items, i, None)
  {
  }

  lemma UncountedIsNotHeld(items: seq<Item>, i: nat)
    requires i < |items| && !items[i].counted
    ensures MarkedAt(items, i, None)
  {
  }

  lemma FirstHolder(items: seq<Item>, i: nat, o: nat)
    requires i < |items| && o < |items| && Holder(items, i, o) && forall p: nat :: p < o ==> !Holder(items, i, p)
    ensures MarkedAt(items, i, Some(items[o].id))
  {
  }

  ghost predicate MarkedAt(items: seq<Item>, i: nat, inside: Option<string>)
    requires i < |items|
  {
    && (inside.Some? <==> Held(items, i))
    && forall o: nat :: o < |items| && Holder(items, i, o) && (forall p: nat :: p < o ==> !Holder(items, i, p)) ==>
         inside == Some(items[o].id)
  }

  function Rooted(item: Item): seq<Root> {
    seq(|item.roots|, i requires 0 <= i < |item.roots| => Root(item.roots[i], item.id))
  }

  // Candidates in an order in which a file is counted twice: a folder measured entry by entry around one of its files,
  // and after that a folder in it that holds the file next to it.

  const INNER: Path := ["a", "b", "c"]
  const REST: Path := ["a", "b", "d"]
  const WHOLE: Path := ["a", "b"]
  const HOMES: seq<Path> := [["home"]]

  function Told(total: nat): CleanWalk.Scan {
    CleanWalk.Scan(total, 0, 0, false, false)
  }

  function FileEntry(name: string, blocks: nat): Entry {
    Entry(name, Node(File, blocks, Fine, Told(blocks), []))
  }

  function Files(c: nat, d: nat): seq<Entry> {
    [FileEntry("c", c)] + ([FileEntry("d", d)] + [])
  }

  function Folder(c: nat, d: nat): Entry {
    Entry("b", Node(Dir, 1, Fine, Told(1 + c + d), Files(c, d)))
  }

  /** What is in /a: a folder with two files. */
  function Listing(c: nat, d: nat): seq<Entry> {
    [Folder(c, d)] + []
  }

  function Misordered(c: nat, d: nat): seq<Spec> {
    [Spec("inner", Some(INNER), false, None, false, Some(Told(c))),
     Spec("rest", Some(["a"]), true, Some(Listing(c, d)), false, None),
     Spec("whole", Some(WHOLE), false, None, false, Some(Told(1 + c + d)))]
  }

  ghost function FoldersHere(): Path -> bool {
    (p: Path) => p == [] || p == ["a"] || p == WHOLE
  }

  // A list of entries taken one entry at a time.

  lemma NoEntries(dir: Path, excluded: set<Path>, isDir: Path -> bool)
    ensures Faultless([]) && Linkless([]) && Blocks([]) == 0 && OnDisk([], dir, isDir)
    ensures RootsIn([], dir, excluded) == [] && Rest([], dir, excluded) == 0
  {
  }

  lemma MoreEntries(entry: Entry, entries: seq<Entry>, dir: Path, excluded: set<Path>)
    ensures Faultless([entry] + entries) <==> FaultlessOf(entry) && Faultless(entries)
    ensures Linkless([entry] + entries) <==> LinklessOf(entry) && Linkless(entries)
    ensures Blocks([entry] + entries) == BlocksOf(entry) + Blocks(entries)
    ensures RootsIn([entry] + entries, dir, excluded) == RootsOf(entry, dir, excluded) + RootsIn(entries, dir, excluded)
    ensures Rest([entry] + entries, dir, excluded) == RestOf(entry, dir, excluded) + Rest(entries, dir, excluded)
  {
    hide FaultlessOf, LinklessOf, BlocksOf, RootsOf, RestOf;
    var all := [entry] + entries;
    assert all != [] && all[0] == entry && all[1..] == entries;
  }

  lemma MoreOnDisk(entry: Entry, entries: seq<Entry>, dir: Path, isDir: Path -> bool)
    requires OnDiskOf(entry, dir, isDir) && OnDisk(entries, dir, isDir)
    requires forall other :: other in entries ==> other.name != entry.name
    ensures OnDisk([entry] + entries, dir, isDir)
  {
    hide OnDiskOf;
    var all := [entry] + entries;
    assert all[0] == entry && all[1..] == entries;
    forall k | 1 <= k < |all|
      ensures all[k].name != all[0].name
    {
      assert all[k] == entries[k - 1];
    }
  }

  lemma OneFile(name: string, blocks: nat, dir: Path, excluded: set<Path>)
    ensures var e := FileEntry(name, blocks);
            && FaultlessOf(e) && LinklessOf(e) && BlocksOf(e) == blocks
            && RootsOf(e, dir, excluded) == (if dir + [name] in excluded then [] else [dir + [name]])
            && RestOf(e, dir, excluded) == (if dir + [name] in excluded then 0 else blocks)
  {
    hide Faultless, Linkless, Blocks, RootsIn, Rest, OnDisk, NothingUnder;
    NoEntries(dir + [name], excluded, (p: Path) => true);
  }

  lemma FileOnDisk(name: string, blocks: nat, dir: Path, isDir: Path -> bool)
    requires !isDir(dir + [name])
    ensures OnDiskOf(FileEntry(name, blocks), dir, isDir)
  {
    hide OnDisk, Faultless, Linkless, Blocks, RootsIn, Rest;
    NoEntries(dir + [name], {}, isDir);
  }

  lemma PathsHere()
    ensures ["a"] + ["b"] == WHOLE && WHOLE + ["c"] == INNER && WHOLE + ["d"] == REST && INNER != REST
    ensures !FoldersHere()(INNER) && !FoldersHere()(REST) && FoldersHere()(WHOLE)
  {
    assert INNER[2] != REST[2];
  }

  lemma FilesAre(c: nat, d: nat)
    ensures Faultless(Files(c, d)) && Linkless(Files(c, d)) && Blocks(Files(c, d)) == c + d
    ensures RootsIn(Files(c, d), WHOLE, {INNER}) == [REST] && Rest(Files(c, d), WHOLE, {INNER}) == d
  {
    hide Faultless, Linkless, Blocks, RootsIn, Rest, OnDisk, FaultlessOf, LinklessOf, BlocksOf, RootsOf, RestOf,
         FileEntry;
    PathsHere();
    OneFile("c", c, WHOLE, {INNER});
    OneFile("d", d, WHOLE, {INNER});
    MoreEntries(FileEntry("c", c), [FileEntry("d", d)] + [], WHOLE, {INNER});
    MoreEntries(FileEntry("d", d), [], WHOLE, {INNER});
    NoEntries(WHOLE, {INNER}, FoldersHere());
  }

  lemma FilesOnDisk(c: nat, d: nat)
    ensures OnDisk(Files(c, d), WHOLE, FoldersHere())
  {
    hide OnDisk, OnDiskOf, Faultless, Linkless, Blocks, RootsIn, Rest;
    PathsHere();
    FileOnDisk("c", c, WHOLE, FoldersHere());
    FileOnDisk("d", d, WHOLE, FoldersHere());
    NoEntries(WHOLE, {}, FoldersHere());
    MoreOnDisk(FileEntry("d", d), [], WHOLE, FoldersHere());
    assert "c"[0] != "d"[0];
    MoreOnDisk(FileEntry("c", c), [FileEntry("d", d)] + [], WHOLE, FoldersHere());
  }

  lemma ListingOnDisk(c: nat, d: nat)
    ensures OnDisk(Listing(c, d), ["a"], FoldersHere())
  {
    hide OnDisk, Faultless, Linkless, Blocks, RootsIn, Rest, Files;
    PathsHere();
    FilesOnDisk(c, d);
    NoEntries(["a"], {}, FoldersHere());
    MoreOnDisk(Folder(c, d), [], ["a"], FoldersHere());
  }

  lemma ListingFaultless(c: nat, d: nat)
    ensures Faultless(Listing(c, d))
  {
    hide Faultless, Linkless, Blocks, RootsIn, Rest, Files;
    FilesAre(c, d);
    NoEntries([], {}, FoldersHere());
    MoreEntries(Folder(c, d), [], [], {});
  }

  lemma ListingBlocks(c: nat, d: nat)
    ensures Linkless(Listing(c, d)) && Blocks(Listing(c, d)) == 1 + c + d
  {
    hide Faultless, Linkless, Blocks, RootsIn, Rest, Files;
    FilesAre(c, d);
    NoEntries([], {}, FoldersHere());
    MoreEntries(Folder(c, d), [], [], {});
  }

  lemma MisorderedOnDisk(c: nat, d: nat)
    ensures forall i :: 0 <= i < 3 ==>
              SpecOnDisk(Misordered(c, d)[i], FoldersHere()) && FaultlessSpec(Misordered(c, d)[i])
  {
    hide OnDisk, Faultless, Linkless, Blocks, Listing;
    ListingOnDisk(c, d);
    ListingFaultless(c, d);
    assert INNER[..0] == [] && INNER[..1] == ["a"] && INNER[..2] == WHOLE;
    assert WHOLE[..0] == [] && WHOLE[..1] == ["a"];
    assert Placed(INNER, FoldersHere()) && Placed(["a"], FoldersHere()) && Placed(WHOLE, FoldersHere());
  }

  /** Around /a/b/c, what is left of /a is /a/b/d and the folder /a/b itself. */
  lemma ListingAround(c: nat, d: nat)
    ensures RootsIn(Listing(c, d), ["a"], {INNER}) == [REST]
    ensures Rest(Listing(c, d), ["a"], {INNER}) == 1 + d
  {
    hide Faultless, Linkless, Blocks, RootsIn, Rest, Files;
    PathsHere();
    FilesAre(c, d);
    NoEntries(["a"], {INNER}, FoldersHere());
    MoreEntries(Folder(c, d), [], ["a"], {INNER});
    assert WHOLE <= INNER && !NothingUnder(WHOLE, {INNER});
  }

  lemma MisorderedRoots(c: nat, d: nat)
    ensures var specs := Misordered(c, d);
            && TakenBy(specs, 0, HOMES) == {} && TakenBy(specs, 1, HOMES) == {INNER}
            && TakenBy(specs, 2, HOMES) == {INNER, REST}
            && RootsFor(specs[0], {}, HOMES) == [INNER]
            && RootsFor(specs[1], {INNER}, HOMES) == [REST] && Beneath({INNER}, ["a"]) == {INNER}
            && RootsFor(specs[2], {INNER, REST}, HOMES) == [WHOLE]
            && CountedFor(specs[1], {INNER}, HOMES) && CountedFor(specs[2], {INNER, REST}, HOMES)
  {
    hide RootsIn, Listing;
    ListingAround(c, d);
    var specs := Misordered(c, d);
    assert forall p: Path :: Covers(p, HOMES) ==> p <= ["home"];
    assert INNER[0] == "a" && WHOLE[0] == "a" && "a" != "home";
    assert !(INNER <= ["a"]) && !Unlisted(specs[1], {INNER});
    assert Beneath({INNER}, ["a"]) == {INNER};
    assert INNER[2] != REST[2] && |WHOLE| == 2;
    assert Elements([INNER]) == {INNER} && Elements([REST]) == {REST};
    assert TakenBy(specs, 1, HOMES) == {} + Elements(RootsFor(specs[0], {}, HOMES));
    assert TakenBy(specs, 1, HOMES) == {INNER};
    assert TakenBy(specs, 2, HOMES) == TakenBy(specs, 1, HOMES)
      + Elements(RootsFor(specs[1], TakenBy(specs, 1, HOMES), HOMES));
    assert TakenBy(specs, 2, HOMES) == {INNER} + Elements(RootsFor(specs[1], {INNER}, HOMES));
  }

  /** Whatever a scan of these candidates gives: the file /a/b/d is counted twice. */
  lemma OrderMatters(items: seq<Item>, c: nat, d: nat)
    requires |items| == 3 && Laid(items) && Marked(items) && Made(items, Misordered(c, d), 3, HOMES)
    ensures BetweenAt(items, 2, 1, REST) && !Disjoint(items)
    ensures Top(items, 1) && Top(items, 2) && items[1].usage + items[2].usage == Blocks(Listing(c, d)) + 1 + d
  {
    var specs := Misordered(c, d);
    MisorderedRoots(c, d);
    ListingAround(c, d);
    ListingBlocks(c, d);
    hide RootsFor, CountedFor, TakenBy, Listing, RootsIn, Rest, Linkless, Blocks, Laid, Disjoint;
    assert MadeOf(items[0], specs[0], {}, HOMES);
    assert MadeOf(items[1], specs[1], {INNER}, HOMES);
    assert MadeOf(items[2], specs[2], {INNER, REST}, HOMES);
    assert !Within(items[1], INNER) && !Within(items[1], WHOLE);
    assert !Within(items[2], INNER) && !Within(items[2], REST);
    assert !Held(items, 1) && !Held(items, 2);
    assert ["a"] < WHOLE < REST;
    assert BetweenAt(items, 2, 1, REST);
    NoDoubleCounting(items);
  }

  /** And the scan does give it. */
  method ScanMisordered(c: nat, d: nat) returns (items: array<Item>)
    ensures items.Length == 3 && Laid(items[..]) && Marked(items[..]) && !Disjoint(items[..])
    ensures items[1].roots == [REST] && items[2].roots == [WHOLE]
    ensures items[1].usage + items[2].usage == Blocks(Listing(c, d)) + 1 + d
  {
    hide Laid, Marked, Made, Disjoint, SpecOnDisk, FaultlessSpec, BetweenAt, Top, Listing, Blocks;
    var ctx := new Context(None);
    var scanner := new Scanner(ctx, HOMES, FoldersHere());
    MisorderedOnDisk(c, d);
    items := scanner.Scan(Misordered(c, d));
    OrderMatters(items[..], c, d);
    MisorderedMeasured(items[..], c, d);
  }

  lemma MisorderedMeasured(items: seq<Item>, c: nat, d: nat)
    requires |items| == 3 && Made(items, Misordered(c, d), 3, HOMES)
    ensures items[1].roots == [REST] && items[2].roots == [WHOLE]
  {
    hide RootsFor, CountedFor, TakenBy, Listing, Rest, Linkless;
    MisorderedRoots(c, d);
    var specs := Misordered(c, d);
    assert MadeOf(items[1], specs[1], TakenBy(specs, 1, HOMES), HOMES)
      && MadeOf(items[2], specs[2], TakenBy(specs, 2, HOMES), HOMES);
  }
}
