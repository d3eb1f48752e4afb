// Attributing the folders of old Docker overlay2 data to images and containers.
module Overlay {
  import opened Folds

  /** A layer's chain ID (OCI Image Format Specification, config.md, section "Layer ChainID"): the first layer's
      diff ID, or the digest of the chain below and the layer's diff ID. Digests are taken to be injective. */
  datatype ChainId = First(diff: string) | Next(below: ChainId, diff: string)

  function Chain(diffs: seq<string>): ChainId
    requires diffs != []
  {
    var n := |diffs| - 1;
    if n == 0 then ChainId.First(diffs[0]) else Next(Chain(diffs[..n]), diffs[n])
  }

  /** What layerdb says of a container: its write layer's folder and its init folder, where they can be read. */
  datatype Mount = Mount(mountId: Option<string>, initId: Option<string>)

  /** An image: how many bytes its layers take, and how many of them other images use as well. */
  datatype ImageRow = ImageRow(layers: nat, bytes: nat, shared: nat)

  datatype Attribution = Attribution(total: nat, image: nat, container: nat, unusedBytes: nat, unusedLayers: nat,
                                     unknownBytes: nat, unknownDirs: nat, missingLayers: nat, rows: seq<ImageRow>)

  /** The folder of short names, which holds no data. */
  const LINKS: string := "l"

  ghost function BytesOf(totals: map<string, nat>): string -> nat {
    name => if name in totals then totals[name] else 0
  }

  // The layers of an image.

  /** The folders of an image's first k layers, found by their chain IDs. */
  ghost function LayerSet(diffs: seq<string>, k: nat, cacheOf: map<ChainId, string>): set<string>
    requires k <= |diffs|
  {
    if k == 0 then {} else
    LayerSet(diffs, k - 1, cacheOf) + if Chain(diffs[..k]) in cacheOf then {cacheOf[Chain(diffs[..k])]} else {}
  }

  /** How many of an image's first k layers are not in layerdb. */
  ghost function Missing(diffs: seq<string>, k: nat, cacheOf: map<ChainId, string>): nat
    requires k <= |diffs|
  {
    if k == 0 then 0 else Missing(diffs, k - 1, cacheOf) + if Chain(diffs[..k]) in cacheOf then 0 else 1
  }

  ghost predicate Distinct<T>(s: seq<T>) {
    forall i, j :: 0 <= i < j < |s| ==> s[i] != s[j]
  }

  lemma NoElements<T>()
    ensures Elements<T>([]) == {}
  {
  }

  lemma ElementsSnoc<T>(s: seq<T>, x: T)
    ensures Elements(s + [x]) == Elements(s) + {x}
    ensures Distinct(s) && x !in Elements(s) ==> Distinct(s + [x])
    ensures x in s <==> x in Elements(s)
  {
    var more := s + [x];
    assert more[|s|] == x;
    forall i | 0 <= i < |s| ensures s[i] in Elements(more) {
      assert more[i] == s[i];
    }
  }

  /** The folders of an image's layers, without repetition, and how many of its layers are not in layerdb. */
  method ReadImage(diffs: seq<string>, cacheOf: map<ChainId, string>) returns (layers: seq<string>, missing: nat)
    ensures Distinct(layers) && Elements(layers) == LayerSet(diffs, |diffs|, cacheOf)
    ensures missing == Missing(diffs, |diffs|, cacheOf)
  {
    layers, missing := [], 0;
    var seen: set<string>, chain := {}, ChainId.First("");
    for index := 0 to |diffs|
      invariant index > 0 ==> chain == Chain(diffs[..index])
      invariant Distinct(layers) && Elements(layers) == seen == LayerSet(diffs, index, cacheOf)
      invariant missing == Missing(diffs, index, cacheOf)
    {
      assert diffs[..index + 1][..index] == diffs[..index];
      chain := if index == 0 then ChainId.First(diffs[0]) else Next(chain, diffs[index]);
      if chain !in cacheOf {
        missing := missing + 1;
      } else if cacheOf[chain] !in seen {
        ElementsSnoc(layers, cacheOf[chain]);
        seen := seen + {cacheOf[chain]};
        layers := layers + [cacheOf[chain]];
      }
    }
  }

  // How often layers are used.

  ghost function Uses(c: string): seq<string> -> bool {
    layers => c in layers
  }

  /** How many images use a layer. */
  ghost function Users(images: seq<seq<string>>, c: string): nat {
    Count(images, Uses(c))
  }

  ghost function Used(images: seq<seq<string>>): set<string> {
    if images == [] then {} else Used(images[..|images| - 1]) + Elements(images[|images| - 1])
  }

  lemma UsedSnoc(images: seq<seq<string>>, layers: seq<string>)
    ensures Used(images + [layers]) == Used(images) + Elements(layers)
    ensures forall c :: Users(images + [layers], c) == Users(images, c) + if c in Elements(layers) then 1 else 0
  {
    assert (images + [layers])[..|images|] == images;
    forall c
      ensures Users(images + [layers], c) == Users(images, c) + if c in Elements(layers) then 1 else 0
    {
      SumSnoc(images, layers, Indicator(Uses(c)));
      ElementsSnoc(layers, c);
    }
  }

  lemma {:induction false} UsedIsPositive(images: seq<seq<string>>, c: string)
    ensures c in Used(images) <==> Users(images, c) > 0
  {
    if images != [] {
      var n := |images| - 1;
      UsedIsPositive(images[..n], c);
      UsedSnoc(images[..n], images[n]);
      assert images == images[..n] + [images[n]];
    }
  }

  method CountUsers(images: seq<seq<string>>) returns (users: map<string, nat>)
    requires forall i :: 0 <= i < |images| ==> Distinct(images[i])
    ensures users.Keys == Used(images) && forall c :: c in users ==> users[c] == Users(images, c)
  {
    users := map[];
    for i := 0 to |images|
      invariant users.Keys == Used(images[..i]) && forall c :: c in users ==> users[c] == Users(images[..i], c)
    {
      hide Elements, Users;
      ghost var before := users;
      users := CountLayers(images[i], users);
      assert images[..i + 1] == images[..i] + [images[i]];
      UsedSnoc(images[..i], images[i]);
      forall c | c in users
        ensures users[c] == Users(images[..i + 1], c)
      {
        UsedIsPositive(images[..i], c);
      }
    }
    assert images[..|images|] == images;
  }

  method CountLayers(layers: seq<string>, before: map<string, nat>) returns (users: map<string, nat>)
    requires Distinct(layers)
    ensures users.Keys == before.Keys + Elements(layers)
    ensures forall c :: c in users ==>
              users[c] == (if c in before then before[c] else 0) + if c in Elements(layers) then 1 else 0
  {
    users := before;
    for j := 0 to |layers|
      invariant users.Keys == before.Keys + Elements(layers[..j])
      invariant forall c :: c in users ==>
                  users[c] == (if c in before then before[c] else 0) + if c in Elements(layers[..j]) then 1 else 0
    {
      var c := layers[j];
      assert layers[..j + 1] == layers[..j] + [c];
      ElementsSnoc(layers[..j], c);
      assert c !in layers[..j];
      users := users[c := (if c in users then users[c] else 0) + 1];
    }
    assert layers[..|layers|] == layers;
  }

  // Where the bytes go.

  ghost function ContainerIds(mounts: seq<Mount>): seq<string> {
    if mounts == [] then [] else
    var m := mounts[|mounts| - 1];
    ContainerIds(mounts[..|mounts| - 1]) + (if m.mountId.Some? then [m.mountId.value] else [])
      + if m.initId.Some? then [m.initId.value] else []
  }

  /** The bytes of container folders counted before, as another container's, an image's, or no data at all. */
  ghost function Recounted(ids: seq<string>, used: set<string>, totals: map<string, nat>): nat {
    if ids == [] then 0 else
    var n := |ids| - 1;
    Recounted(ids[..n], used, totals)
      + if ids[n] in ids[..n] || ids[n] in used || ids[n] == LINKS then BytesOf(totals)(ids[n]) else 0
  }

  /** How far the parts can exceed the whole. */
  ghost function Excess(ids: seq<string>, used: set<string>, totals: map<string, nat>): nat {
    Recounted(ids, used, totals) + if LINKS in used then BytesOf(totals)(LINKS) else 0
  }

  ghost function Folders(totals: map<string, nat>): set<string> {
    totals.Keys - {LINKS}
  }

  /** The folders of layers no image uses, and those nothing is known of. */
  ghost function UnusedDirs(totals: map<string, nat>, layerDirs: set<string>, dirs: set<string>,
                            used: set<string>): set<string> {
    (Folders(totals) - used - dirs) * layerDirs
  }

  ghost function UnknownDirs(totals: map<string, nat>, layerDirs: set<string>, dirs: set<string>,
                             used: set<string>): set<string> {
    Folders(totals) - used - dirs - layerDirs
  }

  ghost predicate IsRow(row: ImageRow, totals: map<string, nat>, images: seq<seq<string>>, i: nat)
    requires i < |images|
  {
    row == ImageRow(|images[i]|, Sum(images[i], BytesOf(totals)),
      Sum(images[i], Only(SharedBy(images), BytesOf(totals))))
  }

  /** a says where each folder's bytes went. */
  ghost predicate Attributes(a: Attribution, totals: map<string, nat>, layerDirs: set<string>, ids: seq<string>,
                             images: seq<seq<string>>) {
    var used := Used(images);
    && a.total == SumSet(Folders(totals), BytesOf(totals))
    && a.image == SumSet(used, BytesOf(totals))
    && a.container == Sum(ids, BytesOf(totals))
    && a.unusedBytes == SumSet(UnusedDirs(totals, layerDirs, Elements(ids), used), BytesOf(totals))
    && a.unusedLayers == |UnusedDirs(totals, layerDirs, Elements(ids), used)|
    && a.unknownBytes == SumSet(UnknownDirs(totals, layerDirs, Elements(ids), used), BytesOf(totals))
    && a.unknownDirs == |UnknownDirs(totals, layerDirs, Elements(ids), used)|
    && |a.rows| == |images|
    && forall i :: 0 <= i < |images| ==> IsRow(a.rows[i], totals, images, i)
  }

  ghost function SharedBy(images: seq<seq<string>>): string -> bool {
    c => Users(images, c) > 1
  }

  ghost function OwnBy(images: seq<seq<string>>): string -> bool {
    c => Users(images, c) == 1
  }

  /** The container folders, each counted at its first mention and only if no image's, plus what was recounted. */
  lemma {:induction false} IdsSum(ids: seq<string>, used: set<string>, totals: map<string, nat>)
    ensures Sum(ids, BytesOf(totals))
            == Recounted(ids, used, totals) + SumSet(Elements(ids) - used - {LINKS}, BytesOf(totals))
  {
    hide BytesOf, Elements;
    if ids == [] {
      NoElements<string>();
    } else {
      var n := |ids| - 1;
      var x := ids[n];
      IdsSum(ids[..n], used, totals);
      assert ids == ids[..n] + [x];
      ElementsSnoc(ids[..n], x);
      var before, now := Elements(ids[..n]) - used - {LINKS}, Elements(ids) - used - {LINKS};
      if x in ids[..n] || x in used || x == LINKS {
        assert now == before;
      } else {
        SumSetTake(now, x, BytesOf(totals));
        assert now - {x} == before;
      }
    }
  }

  /** Names without a folder add nothing. */
  lemma FoldersOnly(ks: set<string>, totals: map<string, nat>)
    ensures SumSet(ks, BytesOf(totals)) == SumSet(ks * totals.Keys, BytesOf(totals))
  {
    var there, not := ks * totals.Keys, ks - totals.Keys;
    assert there + not == ks;
    SumSetUnion(there, not, BytesOf(totals));
    SumSetZero(not, BytesOf(totals));
  }

  /** Conservation: the parts add up to the whole and the excess, so exactly to the whole when nothing with bytes is
      counted twice. */
  lemma PartsAndWhole(a: Attribution, totals: map<string, nat>, layerDirs: set<string>, ids: seq<string>,
                      images: seq<seq<string>>)
    requires Attributes(a, totals, layerDirs, ids, images)
    ensures a.image + a.container + a.unusedBytes + a.unknownBytes == a.total + Excess(ids, Used(images), totals)
    ensures a.image + a.container + a.unusedBytes + a.unknownBytes == a.total <==>
              Excess(ids, Used(images), totals) == 0
  {
    hide Attributes;
    PartsOf(a, totals, layerDirs, ids, images);
    FourParts(totals, layerDirs, Elements(ids), Used(images));
    UsedWithLinks(totals, Used(images));
    IdsSum(ids, Used(images), totals);
  }

  lemma PartsOf(a: Attribution, totals: map<string, nat>, layerDirs: set<string>, ids: seq<string>,
                images: seq<seq<string>>)
    requires Attributes(a, totals, layerDirs, ids, images)
    ensures a.total == SumSet(Folders(totals), BytesOf(totals))
    ensures a.image == SumSet(Used(images), BytesOf(totals)) && a.container == Sum(ids, BytesOf(totals))
    ensures a.unusedBytes == SumSet(UnusedDirs(totals, layerDirs, Elements(ids), Used(images)), BytesOf(totals))
    ensures a.unknownBytes == SumSet(UnknownDirs(totals, layerDirs, Elements(ids), Used(images)), BytesOf(totals))
  {
  }

  lemma UsedWithLinks(totals: map<string, nat>, used: set<string>)
    ensures SumSet(used, BytesOf(totals))
            == SumSet(Folders(totals) * used, BytesOf(totals)) + if LINKS in used then BytesOf(totals)(LINKS) else 0
  {
    if LINKS in used {
      SumSetTake(used, LINKS, BytesOf(totals));
    } else {
      assert used - {LINKS} == used;
    }
    FoldersOnly(used - {LINKS}, totals);
    assert (used - {LINKS}) * totals.Keys == Folders(totals) * used;
  }

  /** Every folder is an image's, a container's, an unused layer's or unknown, and only one of these. */
  lemma FourParts(totals: map<string, nat>, layerDirs: set<string>, dirs: set<string>, used: set<string>)
    ensures SumSet(Folders(totals), BytesOf(totals))
            == SumSet(Folders(totals) * used, BytesOf(totals))
               + SumSet(dirs - used - {LINKS}, BytesOf(totals))
               + SumSet(UnusedDirs(totals, layerDirs, dirs, used), BytesOf(totals))
               + SumSet(UnknownDirs(totals, layerDirs, dirs, used), BytesOf(totals))
  {
    var B := BytesOf(totals);
    var a, b := Folders(totals) * used, (dirs - used - {LINKS}) * totals.Keys;
    var c, d := UnusedDirs(totals, layerDirs, dirs, used), UnknownDirs(totals, layerDirs, dirs, used);
    FoldersOnly(dirs - used - {LINKS}, totals);
    SumSetUnion(a, b, B);
    SumSetUnion(c, d, B);
    SumSetUnion(a + b, c + d, B);
    assert a + b + (c + d) == Folders(totals);
  }

  /** A container folder that is no image's layer, no links folder and mentioned for the first time. */
  ghost predicate Fresh(ids: seq<string>, i: nat, used: set<string>)
    requires i < |ids|
  {
    ids[i] !in ids[..i] && ids[i] !in used && ids[i] != LINKS
  }

  /** Nothing is counted twice if and only if every container folder that holds data is fresh, and the folder of links
      is no image's layer or holds no data. */
  lemma {:induction false} NoExcess(ids: seq<string>, used: set<string>, totals: map<string, nat>)
    ensures Excess(ids, used, totals) == 0 <==>
              && (LINKS in used ==> BytesOf(totals)(LINKS) == 0)
              && forall i: nat :: i < |ids| && BytesOf(totals)(ids[i]) > 0 ==> Fresh(ids, i, used)
  {
    hide BytesOf, LINKS;
    if ids != [] {
      var n := |ids| - 1;
      NoExcess(ids[..n], used, totals);
      assert forall i: nat :: i < n ==> ids[..n][..i] == ids[..i];
      assert forall i: nat :: i < n ==> (Fresh(ids, i, used) <==> Fresh(ids[..n], i, used));
      assert forall i: nat :: i < n ==> ids[..n][i] == ids[i];
      if Excess(ids, used, totals) == 0 {
        assert Excess(ids[..n], used, totals) == 0;
        forall i: nat | i < |ids| && BytesOf(totals)(ids[i]) > 0
          ensures Fresh(ids, i, used)
        {
          assert i < n ==> BytesOf(totals)(ids[..n][i]) > 0;
        }
      }
      if forall i: nat :: i < |ids| && BytesOf(totals)(ids[i]) > 0 ==> Fresh(ids, i, used) {
        assert forall i: nat :: i < n && BytesOf(totals)(ids[..n][i]) > 0 ==>
          BytesOf(totals)(ids[i]) > 0 && Fresh(ids, i, used);
      }
    }
  }

  /** A container whose write layer is an image's only layer: the parts are twice the total. */
  lemma CountedTwice(a: Attribution, c: string, bytes: nat, layerDirs: set<string>)
    requires c != LINKS
    requires Attributes(a, map[c := bytes], layerDirs, ContainerIds([Mount(Some(c), None)]), [[c]])
    ensures a.total == bytes
    ensures a.image + a.container + a.unusedBytes + a.unknownBytes == 2 * a.total
  {
    hide Attributes;
    var totals, ids, used := map[c := bytes], ContainerIds([Mount(Some(c), None)]), Used([[c]]);
    PartsAndWhole(a, totals, layerDirs, ids, [[c]]);
    PartsOf(a, totals, layerDirs, ids, [[c]]);
    assert [Mount(Some(c), None)][..0] == [];
    assert ids == [c];
    UsedSnoc([], [c]);
    assert [] + [[c]] == [[c]];
    assert c in Elements([c]);
    assert c in used;
    assert LINKS !in Elements([c]);
    assert Folders(totals) == {c};
    SumSetTake({c}, c, BytesOf(totals));
    assert Recounted([c][..0], used, totals) == 0;
    assert Recounted([c], used, totals) == bytes;
  }

  // Image bytes.

  ghost function Times(f: string -> nat, images: seq<seq<string>>): string -> nat {
    c => f(c) * Users(images, c)
  }

  ghost function ImageSum(images: seq<seq<string>>, f: string -> nat): nat {
    if images == [] then 0 else ImageSum(images[..|images| - 1], f) + Sum(images[|images| - 1], f)
  }

  /** f where an image has the layer, and 0 elsewhere. */
  ghost function InImage(layers: seq<string>, f: string -> nat): string -> nat {
    c => if c in Elements(layers) then f(c) else 0
  }

  lemma {:induction false} LayersSum(ks: set<string>, layers: seq<string>, f: string -> nat)
    requires Distinct(layers) && Elements(layers) <= ks
    ensures SumSet(ks, InImage(layers, f)) == Sum(layers, f)
  {
    if layers == [] {
      SumSetZero(ks, InImage(layers, f));
    } else {
      var n := |layers| - 1;
      var x, less := layers[n], layers[..n];
      assert layers == less + [x];
      ElementsSnoc(less, x);
      assert x !in less;
      LayersSum(ks, less, f);
      SumSetTake(ks, x, InImage(layers, f));
      SumSetTake(ks, x, InImage(less, f));
      SumSetCong(ks - {x}, InImage(layers, f), InImage(less, f));
    }
  }

  lemma OneMore(f: nat, n: nat, more: bool)
    ensures f * (n + if more then 1 else 0) == f * n + if more then f else 0
  {
  }

  /** Adding up per image counts each layer as often as images use it. */
  lemma {:induction false} DoubleCount(ks: set<string>, images: seq<seq<string>>, f: string -> nat)
    requires Used(images) <= ks && forall i :: 0 <= i < |images| ==> Distinct(images[i])
    ensures ImageSum(images, f) == SumSet(ks, Times(f, images))
  {
    hide Elements, Users;
    if images == [] {
      NoUsers();
      SumSetZero(ks, Times(f, images));
    } else {
      var n := |images| - 1;
      var less, layers := images[..n], images[n];
      assert images == less + [layers];
      UsedSnoc(less, layers);
      DoubleCount(ks, less, f);
      LayersSum(ks, layers, f);
      forall c | c in ks
        ensures Times(f, images)(c) == Times(f, less)(c) + InImage(layers, f)(c)
      {
        OneMore(f(c), Users(less, c), c in Elements(layers));
      }
      SumSetAdd(ks, Times(f, less), InImage(layers, f), Times(f, images));
    }
  }

  lemma NoUsers()
    ensures forall c :: Users([], c) == 0
  {
  }

  ghost function SharedLayers(images: seq<seq<string>>): set<string> {
    set c | c in Used(images) && Users(images, c) > 1
  }

  /** Image bytes are what each image would free by itself, over all images, plus each shared layer once. */
  lemma ImageBytesConserved(totals: map<string, nat>, images: seq<seq<string>>)
    requires forall i :: 0 <= i < |images| ==> Distinct(images[i])
    ensures SumSet(Used(images), BytesOf(totals))
            == ImageSum(images, Only(OwnBy(images), BytesOf(totals))) + SumSet(SharedLayers(images), BytesOf(totals))
  {
    hide Used, Users, SharedLayers, OwnBy, BytesOf;
    var used, shared, B := Used(images), SharedLayers(images), BytesOf(totals);
    var own := Only(OwnBy(images), B);
    DoubleCount(used, images, own);
    OwnOrShared(images, B);
    SumSetUnion(shared, used - shared, B);
    SumSetUnion(shared, used - shared, Times(own, images));
    SumSetCong(used - shared, Times(own, images), B);
    SumSetZero(shared, Times(own, images));
  }

  /** A layer of one image counts once as its own; one of several images counts as none's. */
  lemma OwnOrShared(images: seq<seq<string>>, f: string -> nat)
    ensures SharedLayers(images) <= Used(images)
    ensures SharedLayers(images) + (Used(images) - SharedLayers(images)) == Used(images)
    ensures forall c :: c in Used(images) - SharedLayers(images) ==> Times(Only(OwnBy(images), f), images)(c) == f(c)
    ensures forall c :: c in SharedLayers(images) ==> Times(Only(OwnBy(images), f), images)(c) == 0
  {
    hide Used, Users;
    forall c | c in Used(images) - SharedLayers(images)
      ensures Times(Only(OwnBy(images), f), images)(c) == f(c)
    {
      UsedIsPositive(images, c);
      assert Users(images, c) == 1;
    }
  }

  /** An image's bytes less its shared bytes are the bytes only it uses. */
  lemma {:induction false} OwnAndShared(layers: seq<string>, images: seq<seq<string>>, f: string -> nat)
    requires forall i :: 0 <= i < |layers| ==> layers[i] in Used(images)
    ensures Sum(layers, f) == Sum(layers, Only(OwnBy(images), f)) + Sum(layers, Only(SharedBy(images), f))
  {
    if layers != [] {
      var n := |layers| - 1;
      OwnAndShared(layers[..n], images, f);
      UsedIsPositive(images, layers[n]);
    }
  }

  method Attribute(totals: map<string, nat>, layerDirs: set<string>, mounts: seq<Mount>, images: seq<seq<string>>,
                   missing: nat)
    returns (a: Attribution)
    requires forall i :: 0 <= i < |images| ==> Distinct(images[i])
    ensures Attributes(a, totals, layerDirs, ContainerIds(mounts), images) && a.missingLayers == missing
  {
    hide Used, SharedBy, Users, BytesOf, IsRow;
    var container, containerDirs := AddContainers(totals, mounts);
    var users := CountUsers(images);
    var image := AddUsed(totals, users.Keys);
    var rows := AddRows(totals, images, users);
    var t := AddFolders(totals, layerDirs, containerDirs, users.Keys);
    a := Attribution(t.total, image, container, t.unused, t.unusedLayers, t.unknown, t.unknownDirs, missing, rows);
  }

  method Bytes(totals: map<string, nat>, name: string) returns (bytes: nat)
    ensures bytes == BytesOf(totals)(name)
  {
    bytes := if name in totals then totals[name] else 0;
  }

  method AddContainers(totals: map<string, nat>, mounts: seq<Mount>) returns (sum: nat, dirs: set<string>)
    ensures sum == Sum(ContainerIds(mounts), BytesOf(totals)) && dirs == Elements(ContainerIds(mounts))
  {
    sum, dirs := 0, {};
    for i := 0 to |mounts|
      invariant sum == Sum(ContainerIds(mounts[..i]), BytesOf(totals)) && dirs == Elements(ContainerIds(mounts[..i]))
    {
      hide Sum, BytesOf, Elements, ContainerIds;
      IdsSnoc(mounts, i);
      ghost var ids := ContainerIds(mounts[..i]);
      sum, dirs, ids := AddFolder(totals, sum, dirs, mounts[i].mountId, ids);
      sum, dirs, ids := AddFolder(totals, sum, dirs, mounts[i].initId, ids);
    }
    assert mounts[..|mounts|] == mounts;
  }

  lemma IdsSnoc(mounts: seq<Mount>, i: nat)
    requires i < |mounts|
    ensures ContainerIds(mounts[..i + 1]) == ContainerIds(mounts[..i]) + IdOf(mounts[i].mountId)
              + IdOf(mounts[i].initId)
  {
    assert mounts[..i + 1][..i] == mounts[..i];
  }

  ghost function IdOf(id: Option<string>): seq<string> {
    if id.Some? then [id.value] else []
  }

  method AddFolder(totals: map<string, nat>, before: nat, seen: set<string>, id: Option<string>, ghost ids: seq<string>)
    returns (sum: nat, dirs: set<string>, ghost more: seq<string>)
    requires before == Sum(ids, BytesOf(totals)) && seen == Elements(ids)
    ensures more == ids + IdOf(id) && sum == Sum(more, BytesOf(totals)) && dirs == Elements(more)
  {
    hide Sum, BytesOf, Elements;
    sum, dirs, more := before, seen, ids;
    if id.Some? {
      var bytes := Bytes(totals, id.value);
      AddId(ids, id.value, totals);
      sum, dirs, more := sum + bytes, dirs + {id.value}, ids + [id.value];
    } else {
      assert ids + [] == ids;
    }
  }

  lemma AddId(ids: seq<string>, id: string, totals: map<string, nat>)
    ensures Sum(ids + [id], BytesOf(totals)) == Sum(ids, BytesOf(totals)) + BytesOf(totals)(id)
    ensures Elements(ids + [id]) == Elements(ids) + {id}
  {
    SumSnoc(ids, id, BytesOf(totals));
    ElementsSnoc(ids, id);
  }

  method AddUsed(totals: map<string, nat>, used: set<string>) returns (sum: nat)
    ensures sum == SumSet(used, BytesOf(totals))
  {
    sum := 0;
    var rest := used;
    while rest != {}
      invariant rest <= used && sum + SumSet(rest, BytesOf(totals)) == SumSet(used, BytesOf(totals))
    {
      var c :| c in rest;
      var bytes := Bytes(totals, c);
      SumSetTake(rest, c, BytesOf(totals));
      sum, rest := sum + bytes, rest - {c};
    }
  }

  method AddRows(totals: map<string, nat>, images: seq<seq<string>>, users: map<string, nat>)
      returns (rows: seq<ImageRow>)
    requires users.Keys == Used(images) && forall c :: c in users ==> users[c] == Users(images, c)
    ensures |rows| == |images|
    ensures forall i :: 0 <= i < |images| ==> IsRow(rows[i], totals, images, i)
  {
    hide IsRow, Used, Users;
    rows := [];
    for i := 0 to |images|
      invariant |rows| == i && forall k :: 0 <= k < i ==> IsRow(rows[k], totals, images, k)
    {
      var row := AddRow(totals, images, users, i);
      rows := rows + [row];
    }
  }

  method AddRow(totals: map<string, nat>, images: seq<seq<string>>, users: map<string, nat>, i: nat)
      returns (row: ImageRow)
    requires users.Keys == Used(images) && forall c :: c in users ==> users[c] == Users(images, c)
    requires i < |images|
    ensures IsRow(row, totals, images, i)
  {
    hide Used, Users, Sum, BytesOf;
    var layers, all, shared := images[i], 0, 0;
    NoSums(BytesOf(totals), Only(SharedBy(images), BytesOf(totals)));
    for j := 0 to |layers|
      invariant all == Sum(layers[..j], BytesOf(totals))
      invariant shared == Sum(layers[..j], Only(SharedBy(images), BytesOf(totals)))
    {
      assert layers[..j + 1] == layers[..j] + [layers[j]];
      SumSnoc(layers[..j], layers[j], BytesOf(totals));
      SumSnoc(layers[..j], layers[j], Only(SharedBy(images), BytesOf(totals)));
      LayerUsed(images, i, j);
      var bytes := Bytes(totals, layers[j]);
      all := all + bytes;
      if users[layers[j]] > 1 {
        shared := shared + bytes;
      }
    }
    assert layers[..|layers|] == layers;
    row := ImageRow(|layers|, all, shared);
  }

  lemma NoSums(f: string -> nat, g: string -> nat)
    ensures Sum([], f) == 0 && Sum([], g) == 0
  {
  }

  lemma {:induction false} LayerUsed(images: seq<seq<string>>, i: nat, j: nat)
    requires i < |images| && j < |images[i]|
    ensures images[i][j] in Used(images)
  {
    var n := |images| - 1;
    if i < n {
      LayerUsed(images[..n], i, j);
    } else {
      assert images[i][j] in Elements(images[i]);
    }
  }

  /** The bytes of some folders, and how many of them are layers no image uses or nothing is known of. */
  datatype Tally = Tally(total: nat, unused: nat, unusedLayers: nat, unknown: nat, unknownDirs: nat)

  ghost predicate Tallied(t: Tally, done: set<string>, totals: map<string, nat>, layerDirs: set<string>,
                          dirs: set<string>, used: set<string>) {
    && t.total == SumSet(done, BytesOf(totals))
    && t.unused == SumSet(Layers(done, layerDirs, dirs, used), BytesOf(totals))
    && t.unusedLayers == |Layers(done, layerDirs, dirs, used)|
    && t.unknown == SumSet(Others(done, layerDirs, dirs, used), BytesOf(totals))
    && t.unknownDirs == |Others(done, layerDirs, dirs, used)|
  }

  method AddFolders(totals: map<string, nat>, layerDirs: set<string>, dirs: set<string>, used: set<string>)
      returns (t: Tally)
    ensures t.total == SumSet(Folders(totals), BytesOf(totals))
    ensures t.unused == SumSet(UnusedDirs(totals, layerDirs, dirs, used), BytesOf(totals))
    ensures t.unusedLayers == |UnusedDirs(totals, layerDirs, dirs, used)|
    ensures t.unknown == SumSet(UnknownDirs(totals, layerDirs, dirs, used), BytesOf(totals))
    ensures t.unknownDirs == |UnknownDirs(totals, layerDirs, dirs, used)|
  {
    t := Tally(0, 0, 0, 0, 0);
    var rest := totals.Keys;
    NoneTaken(totals, layerDirs, dirs, used);
    while rest != {}
      invariant rest <= totals.Keys && Tallied(t, Taken(totals.Keys, rest), totals, layerDirs, dirs, used)
    {
      hide Tallied, Taken;
      var name :| name in rest;
      TakenOne(totals.Keys, rest, name);
      if name != LINKS {
        t := AddOne(t, name, Taken(totals.Keys, rest), totals, layerDirs, dirs, used);
      }
      rest := rest - {name};
    }
    AllTaken(totals, layerDirs, dirs, used);
  }

  method AddOne(before: Tally, name: string, ghost done: set<string>, totals: map<string, nat>, layerDirs: set<string>,
                dirs: set<string>, used: set<string>) returns (t: Tally)
    requires Tallied(before, done, totals, layerDirs, dirs, used) && name !in done
    ensures Tallied(t, done + {name}, totals, layerDirs, dirs, used)
  {
    hide BytesOf, Layers, Others, SumSet;
    var bytes := Bytes(totals, name);
    SumSetOne(done, name, BytesOf(totals));
    LayersOne(done, name, layerDirs, dirs, used, BytesOf(totals));
    OthersOne(done, name, layerDirs, dirs, used, BytesOf(totals));
    t := before.(total := before.total + bytes);
    if name in used || name in dirs {
      return;
    }
    if name in layerDirs {
      t := t.(unused := before.unused + bytes, unusedLayers := before.unusedLayers + 1);
    } else {
      t := t.(unknown := before.unknown + bytes, unknownDirs := before.unknownDirs + 1);
    }
  }

  ghost function Taken(all: set<string>, rest: set<string>): set<string> {
    all - {LINKS} - rest
  }

  ghost function Layers(done: set<string>, layerDirs: set<string>, dirs: set<string>, used: set<string>): set<string> {
    (done - used - dirs) * layerDirs
  }

  ghost function Others(done: set<string>, layerDirs: set<string>, dirs: set<string>, used: set<string>): set<string> {
    done - used - dirs - layerDirs
  }

  lemma NoneTaken(totals: map<string, nat>, layerDirs: set<string>, dirs: set<string>, used: set<string>)
    ensures Tallied(Tally(0, 0, 0, 0, 0), Taken(totals.Keys, totals.Keys), totals, layerDirs, dirs, used)
  {
    assert Taken(totals.Keys, totals.Keys) == {};
    assert Layers({}, layerDirs, dirs, used) == {} && Others({}, layerDirs, dirs, used) == {};
  }

  lemma AllTaken(totals: map<string, nat>, layerDirs: set<string>, dirs: set<string>, used: set<string>)
    ensures Taken(totals.Keys, {}) == Folders(totals)
    ensures Layers(Folders(totals), layerDirs, dirs, used) == UnusedDirs(totals, layerDirs, dirs, used)
    ensures Others(Folders(totals), layerDirs, dirs, used) == UnknownDirs(totals, layerDirs, dirs, used)
  {
  }

  lemma TakenOne(all: set<string>, rest: set<string>, name: string)
    requires name in rest && rest <= all
    ensures Taken(all, rest - {name}) == if name == LINKS then Taken(all, rest) else Taken(all, rest) + {name}
    ensures name !in Taken(all, rest)
  {
  }

  lemma LayersOne(done: set<string>, name: string, layerDirs: set<string>, dirs: set<string>, used: set<string>,
                  g: string -> nat)
    requires name !in done
    ensures var more := name !in used && name !in dirs && name in layerDirs;
            && SumSet(Layers(done + {name}, layerDirs, dirs, used), g)
               == SumSet(Layers(done, layerDirs, dirs, used), g) + (if more then g(name) else 0)
            && |Layers(done + {name}, layerDirs, dirs, used)|
               == |Layers(done, layerDirs, dirs, used)| + if more then 1 else 0
  {
    hide SumSet;
    var before, after := Layers(done, layerDirs, dirs, used), Layers(done + {name}, layerDirs, dirs, used);
    if name !in used && name !in dirs && name in layerDirs {
      assert after == before + {name};
      SumSetOne(before, name, g);
    } else {
      assert after == before;
    }
  }

  lemma OthersOne(done: set<string>, name: string, layerDirs: set<string>, dirs: set<string>, used: set<string>,
                  g: string -> nat)
    requires name !in done
    ensures var more := name !in used && name !in dirs && name !in layerDirs;
            && SumSet(Others(done + {name}, layerDirs, dirs, used), g)
               == SumSet(Others(done, layerDirs, dirs, used), g) + (if more then g(name) else 0)
            && |Others(done + {name}, layerDirs, dirs, used)|
               == |Others(done, layerDirs, dirs, used)| + if more then 1 else 0
  {
    hide SumSet;
    var before, after := Others(done, layerDirs, dirs, used), Others(done + {name}, layerDirs, dirs, used);
    if name !in used && name !in dirs && name !in layerDirs {
      assert after == before + {name};
      SumSetOne(before, name, g);
    } else {
      assert after == before;
    }
  }

  lemma SumSetOne(ks: set<string>, k: string, g: string -> nat)
    requires k !in ks
    ensures SumSet(ks + {k}, g) == SumSet(ks, g) + g(k)
  {
    SumSetTake(ks + {k}, k, g);
    assert ks + {k} - {k} == ks;
  }
}
