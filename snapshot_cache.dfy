/** The snapshot cache (changes_lxc_wrapper/snapshot_cache.py): the snapshot
    images found on disk under the cache root, each reconciled against the
    metadata the job service lists for it, with their sizes, their total,
    and removal. The disk is a `FileTree.Node`, and the service's snapshot
    listing is a parameter. */
module SnapshotCaching {
  import opened Wrappers
  import opened Text
  import opened FileTree
  import Uuids

  /** `get_directory_size(path)` where `path` holds `n`: adds up the size of
      every file of every step of `os.walk(path)`. */
  method GetDirectorySize(path: string, n: Node) returns (total: nat)
    ensures total == DirectorySize(n)
  {
    var walk := Walk(path, n);
    total := 0;
    for i := 0 to |walk|
      invariant total == StepsSize(walk[..i])
    {
      var step := walk[i];
      var before := total;
      for j := 0 to |step.files|
        invariant total == before + FileSizes(step.files[..j])
      {
        var f := step.files[j];
        // `f.size` is what `os.path.getsize` reports for `Join(step.dirpath, f.name)`.
        total := total + f.size;
        FileSizesAppend(step.files[..j], [f]);
        assert step.files[..j + 1] == step.files[..j] + [f];
      }
      assert step.files[..|step.files|] == step.files;
      StepsSizeAppend(walk[..i], [step]);
      assert walk[..i + 1] == walk[..i] + [step];
    }
    assert walk[..|walk|] == walk;
    WalkSize(path, n);
  }

  /** `_r_collect_files(path, _stack, depth)` on a directory `path` whose
      entries are `entries`: appends to the shared stack. */
  method CollectInto(path: string, entries: seq<Node>, depth: nat, stack: seq<Found>) returns (out: seq<Found>)
    ensures out == stack + Collected(path, entries, depth)
    decreases entries
  {
    out := stack;
    for i := 0 to |entries|
      invariant out == stack + Collected(path, entries[..i], depth)
    {
      var entry := entries[i];
      CollectedSnoc(path, entries[..i], entry, depth);
      assert entries[..i + 1] == entries[..i] + [entry];
      ghost var prev := out;
      var namePath := Join(path, entry.name);
      if entry.Dir? {
        if depth <= 3 {
          out := CollectInto(namePath, entry.children, depth + 1, out);
        } else {
          out := out + [Found(namePath, entry)];
        }
      }
      assert out == prev + CollectedOne(path, entry, depth);
      Associative(stack, Collected(path, entries[..i], depth), CollectedOne(path, entry, depth));
    }
    assert entries[..|entries|] == entries;
  }

  /** `_collect_files(root)`: no entries for a missing root, otherwise the
      collection from depth 1; listing a root that is a file fails. */
  method CollectFiles(root: string, tree: Option<Node>) returns (r: Result<seq<Found>, FsError>)
    ensures r == CollectSpec(root, tree)
  {
    match tree {
      case None =>
        return Ok([]);
      case Some(File(_, _)) =>
        return Err(NotADirectory(root));
      case Some(Dir(_, children)) =>
        var found := CollectInto(root, children, 1, []);
        assert [] + Collected(root, children, 1) == Collected(root, children, 1);
        return Ok(found);
    }
  }

  /** One snapshot of `api.list_snapshots()`: its project id, creation date
      (the text `convert_date` parses), active flag and image ids, each id
      as the service writes it. */
  datatype UpstreamSnapshot = UpstreamSnapshot(projectId: string, dateCreated: string, isActive: bool, imageIds: seq<string>)

  /** The metadata kept per image: the project's UUID, written out. */
  datatype Meta = Meta(project: string, dateCreated: string, isActive: bool)

  /** A snapshot `initialize` reads without raising: its image ids are
      UUIDs, and so is its project id when it has an image (the project id
      is read once per image). */
  predicate WellFormed(s: UpstreamSnapshot)
  {
    && (forall j :: 0 <= j < |s.imageIds| ==> Uuids.Parse(s.imageIds[j]).Ok?)
    && (s.imageIds != [] ==> Uuids.Parse(s.projectId).Ok?)
  }

  predicate AllWellFormed(listing: seq<UpstreamSnapshot>)
  {
    forall i :: 0 <= i < |listing| ==> WellFormed(listing[i])
  }

  /** A snapshot with its ids read as UUIDs: the metadata its images get,
      and the UUIDs of its images, written out. */
  datatype Listed = Listed(meta: Meta, images: seq<string>)

  /** How `initialize` reads a snapshot. The project id of a snapshot
      without images is never read, and is kept as written. */
  function Read(s: UpstreamSnapshot): (r: Listed)
    requires WellFormed(s)
    ensures |r.images| == |s.imageIds|
  {
    var project := if s.imageIds == [] then s.projectId else Uuids.Parse(s.projectId).value;
    Listed(Meta(project, s.dateCreated, s.isActive),
           seq(|s.imageIds|, j requires 0 <= j < |s.imageIds| => Uuids.Parse(s.imageIds[j]).value))
  }

  /** Each image id of a snapshot is read as the UUID it denotes, and so is
      the project id of a snapshot with images. */
  lemma ReadAt(s: UpstreamSnapshot, j: nat)
    requires WellFormed(s) && j < |s.imageIds|
    ensures Uuids.Parse(s.imageIds[j]) == Ok(Read(s).images[j])
    ensures Uuids.Parse(s.projectId) == Ok(Read(s).meta.project)
    ensures Read(s).meta == Meta(Read(s).meta.project, s.dateCreated, s.isActive)
  {
  }

  /** The listing, snapshot by snapshot, read as `initialize` reads it. */
  function ReadAll(listing: seq<UpstreamSnapshot>): (r: seq<Listed>)
    requires AllWellFormed(listing)
    ensures |r| == |listing|
  {
    if listing == [] then []
    else
      var n := |listing| - 1;
      assert forall k :: 0 <= k < n ==> listing[..n][k] == listing[k];
      ReadAll(listing[..n]) + [Read(listing[n])]
  }

  lemma {:induction false} ReadAllAt(listing: seq<UpstreamSnapshot>, i: nat)
    requires AllWellFormed(listing) && i < |listing|
    ensures ReadAll(listing)[i] == Read(listing[i])
    decreases |listing|
  {
    var n := |listing| - 1;
    assert forall k :: 0 <= k < n ==> listing[..n][k] == listing[k];
    if i < n {
      ReadAllAt(listing[..n], i);
    }
  }

  lemma ReadAllStep(listing: seq<UpstreamSnapshot>, i: nat)
    requires i < |listing| && AllWellFormed(listing[..i]) && WellFormed(listing[i])
    ensures AllWellFormed(listing[..i + 1])
    ensures ReadAll(listing[..i + 1]) == ReadAll(listing[..i]) + [Read(listing[i])]
  {
    assert listing[..i + 1][..i] == listing[..i];
    assert forall k :: 0 <= k < i ==> listing[..i + 1][k] == listing[..i][k];
  }

  /** The images of one snapshot, each UUID mapped to its metadata. */
  function ImagesOf(l: Listed): map<string, Meta>
  {
    map id | id in l.images :: l.meta
  }

  /** `upstream_data` after the loops over a listing: a later listing of an
      image overwrites an earlier one. */
  function UpstreamMap(listed: seq<Listed>): map<string, Meta>
  {
    if listed == [] then map[] else UpstreamMap(listed[..|listed| - 1]) + ImagesOf(listed[|listed| - 1])
  }

  /** The index of the last snapshot with an image `id`, or -1 when there
      is none. */
  function LastListing(listed: seq<Listed>, id: string): (r: int)
    ensures -1 <= r < |listed|
  {
    if listed == [] then -1
    else if id in listed[|listed| - 1].images then |listed| - 1
    else LastListing(listed[..|listed| - 1], id)
  }

  /** `LastListing` finds a snapshot exactly when one lists `id`, and no
      later snapshot lists it. */
  lemma {:induction false} LastListingMeaning(listed: seq<Listed>, id: string)
    ensures LastListing(listed, id) >= 0 <==> exists i :: 0 <= i < |listed| && id in listed[i].images
    ensures LastListing(listed, id) >= 0 ==> id in listed[LastListing(listed, id)].images
    ensures forall k :: LastListing(listed, id) < k < |listed| ==> id !in listed[k].images
    decreases |listed|
  {
    if listed != [] {
      var n := |listed| - 1;
      LastListingMeaning(listed[..n], id);
      assert forall i :: 0 <= i < n ==> listed[..n][i] == listed[i];
    }
  }

  /** A UUID is a key of the upstream map exactly when some snapshot lists
      it, and its metadata is that of the last such snapshot. */
  lemma {:induction false} UpstreamLookup(listed: seq<Listed>, id: string)
    ensures id in UpstreamMap(listed) <==> LastListing(listed, id) >= 0
    ensures id in UpstreamMap(listed) ==> UpstreamMap(listed)[id] == listed[LastListing(listed, id)].meta
    decreases |listed|
  {
    if listed != [] {
      var n := |listed| - 1;
      UpstreamLookup(listed[..n], id);
      if id !in listed[n].images && id in UpstreamMap(listed) {
        var i := LastListing(listed[..n], id);
        assert listed[..n][i] == listed[i];
      }
    }
  }

  /** Some image id of `s` denotes the UUID `id`, however it is written. */
  predicate Lists(s: UpstreamSnapshot, id: string)
  {
    exists j :: 0 <= j < |s.imageIds| && Uuids.Parse(s.imageIds[j]) == Ok(id)
  }

  lemma ListsRead(s: UpstreamSnapshot, id: string)
    requires WellFormed(s)
    ensures Lists(s, id) <==> id in Read(s).images
  {
    if Lists(s, id) {
      var j :| 0 <= j < |s.imageIds| && Uuids.Parse(s.imageIds[j]) == Ok(id);
      ReadAt(s, j);
    }
    if id in Read(s).images {
      var j :| 0 <= j < |s.imageIds| && Read(s).images[j] == id;
      ReadAt(s, j);
    }
  }

  /** Adding one more image of a snapshot to the map built so far. */
  lemma AddImage(data: map<string, Meta>, parsed: seq<string>, id: string, m: Meta)
    ensures (data + map x | x in parsed :: m)[id := m] == data + map x | x in parsed + [id] :: m
  {
  }

  /** The inner loop of `initialize` over the images of one snapshot,
      storing each UUID with the snapshot's metadata: `None` when an image
      id, or the project id read with it, is not a UUID, and `UUID`
      raises. */
  method AddImages(data: map<string, Meta>, s: UpstreamSnapshot) returns (r: Option<map<string, Meta>>)
    ensures r.None? <==> !WellFormed(s)
    ensures r.Some? ==> WellFormed(s) && r.value == data + ImagesOf(Read(s))
  {
    var ids := s.imageIds;
    var out := data;
    ghost var parsed: seq<string> := [];
    ghost var m := Meta(s.projectId, s.dateCreated, s.isActive);
    assert (map x | x in parsed :: m) == map[];
    for j := 0 to |ids|
      invariant |parsed| == j && forall k :: 0 <= k < j ==> Uuids.Parse(ids[k]) == Ok(parsed[k])
      invariant j > 0 ==> Uuids.Parse(s.projectId) == Ok(m.project)
      invariant m == Meta(m.project, s.dateCreated, s.isActive)
      invariant out == data + map x | x in parsed :: m
    {
      var project := Uuids.Parse(s.projectId);
      if project.Err? {
        assert !WellFormed(s);
        return None;
      }
      var id := Uuids.Parse(ids[j]);
      if id.Err? {
        assert !WellFormed(s);
        return None;
      }
      m := Meta(project.value, s.dateCreated, s.isActive);
      AddImage(data, parsed, id.value, m);
      out := out[id.value := Meta(project.value, s.dateCreated, s.isActive)];
      parsed := parsed + [id.value];
    }
    assert WellFormed(s);
    forall k | 0 <= k < |ids| ensures parsed[k] == Read(s).images[k] {
      ReadAt(s, k);
    }
    assert parsed == Read(s).images;
    if ids != [] {
      ReadAt(s, 0);
    }
    return Some(out);
  }

  lemma NotAllWellFormed(listing: seq<UpstreamSnapshot>, i: nat)
    requires i < |listing| && !WellFormed(listing[i])
    ensures !AllWellFormed(listing)
  {
  }

  /** `api.list_snapshots()` folded into `upstream_data`, by the nested loops
      of `initialize`: `None` when an id is not a UUID, and `UUID`
      raises. */
  method BuildUpstream(listing: seq<UpstreamSnapshot>) returns (upstream: Option<map<string, Meta>>)
    ensures upstream.None? <==> !AllWellFormed(listing)
    ensures upstream.Some? ==> AllWellFormed(listing) && upstream.value == UpstreamMap(ReadAll(listing))
  {
    var data: map<string, Meta> := map[];
    for i := 0 to |listing|
      invariant AllWellFormed(listing[..i]) && data == UpstreamMap(ReadAll(listing[..i]))
    {
      var added := AddImages(data, listing[i]);
      if added.None? {
        NotAllWellFormed(listing, i);
        return None;
      }
      ReadAllStep(listing, i);
      var next := ReadAll(listing[..i + 1]);
      assert next[..i] == ReadAll(listing[..i]);
      data := added.value;
    }
    assert listing[..|listing|] == listing;
    return Some(data);
  }

  /** `SnapshotImage`: `id` is the UUID, written out; `dateCreated` and
      `project` are `None` for an image the service does not list. */
  datatype SnapshotImage = SnapshotImage(
    id: string, path: string, size: nat, dateCreated: Option<string>,
    isActive: bool, isValid: bool, project: Option<string>)

  /** The directory of `f` is named by a UUID. */
  predicate Named(f: Found)
  {
    Uuids.Parse(AfterLast(f.path, '/')).Ok?
  }

  predicate AllNamed(found: seq<Found>)
  {
    forall i :: 0 <= i < |found| ==> Named(found[i])
  }

  /** The image `initialize` builds for a collected path whose directory
      name denotes the UUID `id`. */
  function Entry(f: Found, id: string, upstream: map<string, Meta>): SnapshotImage
  {
    if id in upstream then
      var m := upstream[id];
      SnapshotImage(id, f.path, DirectorySize(f.dir), Some(m.dateCreated), m.isActive, true, Some(m.project))
    else
      SnapshotImage(id, f.path, DirectorySize(f.dir), None, false, false, None)
  }

  /** `images` are the images `initialize` builds for `found`, in order:
      each is the entry of its path, under the UUID the last component of
      the path denotes. */
  predicate Built(images: seq<SnapshotImage>, found: seq<Found>, upstream: map<string, Meta>)
  {
    |images| == |found| && forall k :: 0 <= k < |found| ==> Builds(images[k], found[k], upstream)
  }

  /** `image` is the entry of the collected path `f`, under the UUID the
      last component of its path denotes. */
  predicate Builds(image: SnapshotImage, f: Found, upstream: map<string, Meta>)
  {
    Uuids.Parse(AfterLast(f.path, '/')) == Ok(image.id) && image == Entry(f, image.id, upstream)
  }

  /** What `initialize` records for a collected path, stated against the
      listing itself: the id is the UUID the last path component names;
      the entry is valid exactly when some listed snapshot has an image
      with that UUID, and then carries the project, date and active flag of
      the last such snapshot; otherwise it is inactive with no date and no
      project. */
  lemma EntryMeaning(f: Found, id: string, listing: seq<UpstreamSnapshot>)
    requires Uuids.Parse(AfterLast(f.path, '/')) == Ok(id) && AllWellFormed(listing)
    ensures var e := Entry(f, id, UpstreamMap(ReadAll(listing)));
      && e.id == id && e.path == f.path && e.size == DirectorySize(f.dir)
      && (e.isValid <==> exists i :: 0 <= i < |listing| && Lists(listing[i], id))
      && (e.isValid ==>
            exists i :: (0 <= i < |listing| && Lists(listing[i], id)
              && e.project == Some(Uuids.Parse(listing[i].projectId).value)
              && e.dateCreated == Some(listing[i].dateCreated)
              && e.isActive == listing[i].isActive
              && forall k :: i < k < |listing| ==> !Lists(listing[k], id)))
      && (!e.isValid ==> !e.isActive && e.dateCreated.None? && e.project.None?)
  {
    var i := LastLister(listing, id);
    var e := Entry(f, id, UpstreamMap(ReadAll(listing)));
    if e.isValid {
      assert 0 <= i < |listing| && Lists(listing[i], id)
        && e.project == Some(Uuids.Parse(listing[i].projectId).value)
        && e.dateCreated == Some(listing[i].dateCreated)
        && e.isActive == listing[i].isActive
        && forall k :: i < k < |listing| ==> !Lists(listing[k], id);
    }
  }

  /** The upstream map has `id` exactly when some snapshot of the listing
      lists it, and then holds the metadata of the last such snapshot,
      `i`. */
  lemma LastLister(listing: seq<UpstreamSnapshot>, id: string) returns (i: int)
    requires AllWellFormed(listing)
    ensures id in UpstreamMap(ReadAll(listing)) <==> exists i :: 0 <= i < |listing| && Lists(listing[i], id)
    ensures id in UpstreamMap(ReadAll(listing)) ==>
      && 0 <= i < |listing| && Lists(listing[i], id)
      && Uuids.Parse(listing[i].projectId).Ok?
      && UpstreamMap(ReadAll(listing))[id] == Meta(Uuids.Parse(listing[i].projectId).value, listing[i].dateCreated, listing[i].isActive)
      && forall k :: i < k < |listing| ==> !Lists(listing[k], id)
  {
    var listed := ReadAll(listing);
    forall k | 0 <= k < |listing| ensures Lists(listing[k], id) <==> id in listed[k].images {
      ReadAllAt(listing, k);
      ListsRead(listing[k], id);
    }
    UpstreamLookup(listed, id);
    LastListingMeaning(listed, id);
    i := LastListing(listed, id);
    if i >= 0 {
      ReadAllAt(listing, i);
      var j :| 0 <= j < |listing[i].imageIds| && Read(listing[i]).images[j] == id;
      ReadAt(listing[i], j);
    }
  }

  /** One `SnapshotImage` of `initialize`, its size found by walking the
      directory. */
  method BuildEntry(f: Found, id: string, upstream: map<string, Meta>) returns (image: SnapshotImage)
    ensures image == Entry(f, id, upstream)
  {
    var size := GetDirectorySize(f.path, f.dir);
    image := if id in upstream then
      var m := upstream[id];
      SnapshotImage(id, f.path, size, Some(m.dateCreated), m.isActive, true, Some(m.project))
    else
      SnapshotImage(id, f.path, size, None, false, false, None);
  }

  lemma NotAllNamed(found: seq<Found>, i: nat)
    requires i < |found| && !Named(found[i])
    ensures !AllNamed(found)
  {
  }

  /** The loop of `initialize` that builds one `SnapshotImage` per path,
      sizing each directory on the way: `None` when a directory's name is
      not a UUID, and `UUID` raises. */
  method BuildEntries(pathList: seq<Found>, upstream: map<string, Meta>) returns (snapshotList: Option<seq<SnapshotImage>>)
    ensures snapshotList.None? <==> !AllNamed(pathList)
    ensures snapshotList.Some? ==> AllNamed(pathList) && Built(snapshotList.value, pathList, upstream)
  {
    var list: seq<SnapshotImage> := [];
    for i := 0 to |pathList|
      invariant AllNamed(pathList[..i]) && Built(list, pathList[..i], upstream)
    {
      var image := NamedEntry(pathList[i], upstream);
      if image.None? {
        NotAllNamed(pathList, i);
        return None;
      }
      BuiltStep(list, pathList, i, upstream, image.value);
      list := list + [image.value];
    }
    assert pathList[..|pathList|] == pathList;
    return Some(list);
  }

  /** One pass of that loop: the UUID of the directory, or `None` when its
      name is not one, and then its `SnapshotImage`. */
  method NamedEntry(f: Found, upstream: map<string, Meta>) returns (image: Option<SnapshotImage>)
    ensures image.None? <==> !Named(f)
    ensures image.Some? ==> Builds(image.value, f, upstream)
  {
    var parsed := Uuids.Parse(AfterLast(f.path, '/'));
    if parsed.Err? {
      return None;
    }
    var built := BuildEntry(f, parsed.value, upstream);
    return Some(built);
  }

  lemma BuiltStep(list: seq<SnapshotImage>, found: seq<Found>, i: nat, upstream: map<string, Meta>, image: SnapshotImage)
    requires i < |found| && AllNamed(found[..i]) && Built(list, found[..i], upstream)
    requires Builds(image, found[i], upstream)
    ensures AllNamed(found[..i + 1]) && Built(list + [image], found[..i + 1], upstream)
  {
    var before, after, images := found[..i], found[..i + 1], list + [image];
    forall k | 0 <= k < i + 1
      ensures Named(after[k]) && Builds(images[k], after[k], upstream)
    {
      if k < i {
        assert after[k] == before[k] && images[k] == list[k];
      } else {
        assert after[k] == found[i] && images[k] == image;
      }
    }
  }

  /** The sum of the sizes of a list of images. */
  function SumSizes(images: seq<SnapshotImage>): nat
  {
    if images == [] then 0 else images[0].size + SumSizes(images[1..])
  }

  /** `list.remove(x)`: the list without the first element equal to `x`. */
  function RemoveFirst(images: seq<SnapshotImage>, x: SnapshotImage): seq<SnapshotImage>
  {
    if images == [] then []
    else if images[0] == x then images[1..]
    else [images[0]] + RemoveFirst(images[1..], x)
  }

  /** Where the first `x` is. */
  function FirstIndex(images: seq<SnapshotImage>, x: SnapshotImage): (i: nat)
    requires x in images
    ensures i < |images| && images[i] == x && x !in images[..i]
  {
    if images[0] == x then 0
    else
      assert x in images[1..];
      var j := FirstIndex(images[1..], x);
      assert images[..j + 1] == [images[0]] + images[1..][..j];
      j + 1
  }

  /** Removing `x` takes out exactly its first occurrence and keeps every
      other image in order. */
  lemma {:induction false} RemoveFirstSplit(images: seq<SnapshotImage>, x: SnapshotImage)
    requires x in images
    ensures var i := FirstIndex(images, x); RemoveFirst(images, x) == images[..i] + images[i + 1..]
  {
    if images[0] != x {
      var rest := images[1..];
      assert x in rest;
      RemoveFirstSplit(rest, x);
      var j := FirstIndex(rest, x);
      assert images[..j + 1] == [images[0]] + rest[..j];
      assert images[j + 2..] == rest[j + 1..];
    }
  }

  /** Removing `x` lowers the total size by exactly `x.size`. */
  lemma {:induction false} RemoveFirstSize(images: seq<SnapshotImage>, x: SnapshotImage)
    requires x in images
    ensures SumSizes(RemoveFirst(images, x)) + x.size == SumSizes(images)
  {
    if images[0] != x {
      var rest := images[1..];
      assert x in rest;
      RemoveFirstSize(rest, x);
      assert ([images[0]] + RemoveFirst(rest, x))[1..] == RemoveFirst(rest, x);
    }
  }

  /** Removing `x` takes one copy of `x` out of the images, and nothing else. */
  lemma {:induction false} RemoveFirstContents(images: seq<SnapshotImage>, x: SnapshotImage)
    requires x in images
    ensures multiset(RemoveFirst(images, x)) == multiset(images) - multiset{x}
  {
    assert images == [images[0]] + images[1..];
    if images[0] != x {
      var rest := images[1..];
      assert x in rest;
      RemoveFirstContents(rest, x);
    }
  }

  /** Why `initialize` raises: the collection fails, `api.list_snapshots()`
      fails with the given message, or `UUID` refuses an id. */
  datatype InitError = CollectFailed(FsError) | ListingFailed(string) | MalformedId

  /** Why `remove` fails: the `assert not snapshot.is_active`, or the
      `ValueError` of `list.remove` for an image not in the cache. */
  datatype RemoveError = ActiveSnapshot | NotInCache

  /** `SnapshotCache`: the images found under `root`; `listings` counts the
      calls to `api.list_snapshots()` and `deleted` records the paths passed
      to `shutil.rmtree`, in order. */
  class SnapshotCache {
    const root: string
    var snapshots: seq<SnapshotImage>
    var listings: nat
    var deleted: seq<string>

    constructor (root: string)
      ensures this.root == root && snapshots == [] && listings == 0 && deleted == []
    {
      this.root := root;
      snapshots := [];
      listings := 0;
      deleted := [];
    }

    /** `total_size`. */
    function TotalSize(): nat
      reads this
    {
      SumSizes(snapshots)
    }

    /** `initialize` when the disk at `root` holds `tree` and
        `api.list_snapshots()` answers `listing`: collects the paths, asks the
        service only if some path was found, and builds one image per path,
        in collection order. It raises, and assigns nothing, when the root is
        a file, when the service call fails, or when a listed id or a
        directory name is not a UUID. */
    method Initialize(tree: Option<Node>, listing: Result<seq<UpstreamSnapshot>, string>) returns (error: Option<InitError>)
      modifies this
      ensures CollectSpec(root, tree).Err? ==>
        error == Some(CollectFailed(CollectSpec(root, tree).error)) && listings == old(listings)
      ensures CollectSpec(root, tree).Ok? ==>
        listings == old(listings) + (if CollectSpec(root, tree).value == [] then 0 else 1)
      ensures CollectSpec(root, tree).Ok? && CollectSpec(root, tree).value != [] && listing.Err? ==>
        error == Some(ListingFailed(listing.error))
      ensures error.None? <==>
        && CollectSpec(root, tree).Ok?
        && (CollectSpec(root, tree).value != [] ==> listing.Ok? && AllWellFormed(listing.value))
        && AllNamed(CollectSpec(root, tree).value)
      ensures error.Some? ==> snapshots == old(snapshots)
      ensures CollectSpec(root, tree).Ok? && (CollectSpec(root, tree).value != [] ==> listing.Ok?) && error.Some? ==>
        error == Some(MalformedId)
      ensures error.None? ==> Built(snapshots, CollectSpec(root, tree).value,
        if CollectSpec(root, tree).value == [] then map[] else UpstreamMap(ReadAll(listing.value)))
      ensures deleted == old(deleted)
    {
      var collected := CollectFiles(root, tree);
      if collected.Err? {
        return Some(CollectFailed(collected.error));
      }
      var pathList := collected.value;
      var upstream: map<string, Meta> := map[];
      if pathList != [] {
        listings := listings + 1;
        if listing.Err? {
          return Some(ListingFailed(listing.error));
        }
        var built := BuildUpstream(listing.value);
        if built.None? {
          return Some(MalformedId);
        }
        upstream := built.value;
      }
      var snapshotList := BuildEntries(pathList, upstream);
      if snapshotList.None? {
        return Some(MalformedId);
      }
      snapshots := snapshotList.value;
      return None;
    }

    /** `remove(snapshot, on_disk)`: refuses an active image; deletes its
        directory when `onDisk`, then takes it out of the list. */
    method Remove(snapshot: SnapshotImage, onDisk: bool) returns (r: Result<(), RemoveError>)
      modifies this
      ensures snapshot.isActive ==> r == Err(ActiveSnapshot) && snapshots == old(snapshots) && deleted == old(deleted)
      ensures !snapshot.isActive ==> deleted == old(deleted) + (if onDisk then [snapshot.path] else [])
      ensures !snapshot.isActive && snapshot in old(snapshots) ==>
        r.Ok? && snapshots == RemoveFirst(old(snapshots), snapshot)
        && TotalSize() == old(TotalSize()) - snapshot.size
      ensures !snapshot.isActive && snapshot !in old(snapshots) ==>
        r == Err(NotInCache) && snapshots == old(snapshots)
      ensures listings == old(listings)
    {
      if snapshot.isActive {
        return Err(ActiveSnapshot);
      }
      if onDisk {
        deleted := deleted + [snapshot.path];
      }
      if snapshot !in snapshots {
        return Err(NotInCache);
      }
      RemoveFirstSize(snapshots, snapshot);
      snapshots := RemoveFirst(snapshots, snapshot);
      return Ok(());
    }
  }

  lemma RemoveOfTwo(x: SnapshotImage, y: SnapshotImage)
    requires x != y
    ensures RemoveFirst([x, y], y) == [x]
    ensures SumSizes([x, y]) == x.size + y.size && SumSizes([x]) == x.size
  {
    assert [x, y][1..] == [y] && [y][1..] == [] && [x][1..] == [];
    assert SumSizes([x, y]) == x.size + SumSizes([y]);
    assert SumSizes([y]) == y.size + SumSizes([]);
    assert SumSizes([x]) == x.size + SumSizes([]);
  }

  /** The recorded test's cache below `root`: under `ubuntu/precise/i386/`
      an empty snapshot directory `id1` and a directory `id2` holding the
      5-byte file `foo`. */
  function ExampleTree(id1: string, id2: string): Node
  {
    Dir("cache", [Dir("ubuntu", [Dir("precise", [Dir("i386", [Dir(id1, []), Dir(id2, [File("foo", 5)])])])])])
  }

  function ExampleArch(root: string): string
  {
    root + "/ubuntu/precise/i386"
  }

  lemma DescendOne(path: string, name: string, children: seq<Node>, depth: nat)
    requires depth <= 3
    ensures Collected(path, [Dir(name, children)], depth) == Collected(Join(path, name), children, depth + 1)
  {
    CollectedCons(path, [Dir(name, children)], depth);
    assert [Dir(name, children)][1..] == [];
  }

  lemma ReportTwo(path: string, a: Node, b: Node)
    requires a.Dir? && b.Dir?
    ensures Collected(path, [a, b], 4) == [Found(Join(path, a.name), a), Found(Join(path, b.name), b)]
  {
    CollectedCons(path, [a, b], 4);
    CollectedCons(path, [b], 4);
    assert [a, b][1..] == [b] && [b][1..] == [];
  }

  lemma JoinSlash(path: string, name: string)
    requires path != "" && path[|path| - 1] != '/'
    ensures Join(path, name) == path + "/" + name
  {
  }

  /** The path of the example's architecture directory. */
  lemma ExampleArchPath(root: string)
    requires root != "" && root[|root| - 1] != '/'
    ensures Join(Join(Join(root, "ubuntu"), "precise"), "i386") == ExampleArch(root)
  {
    var p1 := Join(root, "ubuntu");
    JoinSlash(root, "ubuntu");
    JoinSlash(p1, "precise");
    var p2 := Join(p1, "precise");
    JoinSlash(p2, "i386");
    assert p1 == root + "/ubuntu";
    assert p2 == root + "/ubuntu/precise";
  }

  /** Both snapshot directories are found, in listing order. */
  lemma ExampleCollected(root: string, id1: string, id2: string)
    requires root != "" && root[|root| - 1] != '/'
    ensures CollectSpec(root, Some(ExampleTree(id1, id2))) == Ok([
      Found(ExampleArch(root) + "/" + id1, Dir(id1, [])),
      Found(ExampleArch(root) + "/" + id2, Dir(id2, [File("foo", 5)]))])
  {
    var a, b := Dir(id1, []), Dir(id2, [File("foo", 5)]);
    var p1 := Join(root, "ubuntu");
    var p2 := Join(p1, "precise");
    var arch := Join(p2, "i386");
    ExampleArchPath(root);
    JoinSlash(arch, id1);
    JoinSlash(arch, id2);
    var i386 := [Dir("i386", [a, b])];
    var precise := [Dir("precise", i386)];
    var ubuntu := [Dir("ubuntu", precise)];
    assert ExampleTree(id1, id2).children == ubuntu;
    DescendOne(root, "ubuntu", precise, 1);
    DescendOne(p1, "precise", i386, 2);
    DescendOne(p2, "i386", [a, b], 3);
    ReportTwo(arch, a, b);
  }

  /** With nothing listed upstream, the two images get their ids from the
      path, sizes 0 and 5 and a total of 5, and neither is valid; removing
      the second leaves the first and a total of 0. */
  lemma ExampleImages(root: string, id1: string, id2: string)
    requires Uuids.Canonical(id1) && Uuids.Canonical(id2) && id1 != id2
    ensures var arch := ExampleArch(root);
      var found := [
        Found(arch + "/" + id1, Dir(id1, [])),
        Found(arch + "/" + id2, Dir(id2, [File("foo", 5)]))];
      var images := [
        SnapshotImage(id1, arch + "/" + id1, 0, None, false, false, None),
        SnapshotImage(id2, arch + "/" + id2, 5, None, false, false, None)];
      && AllNamed(found)
      && Built(images, found, map[])
      && SumSizes(images) == 5
      && RemoveFirst(images, images[1]) == [images[0]]
      && SumSizes(RemoveFirst(images, images[1])) == 0
  {
    var arch := ExampleArch(root);
    NamedByUuid(arch, id1);
    NamedByUuid(arch, id2);
    assert TreeSize([File("foo", 5)]) == 5 + TreeSize([]);
    var found := [
        Found(arch + "/" + id1, Dir(id1, [])),
        Found(arch + "/" + id2, Dir(id2, [File("foo", 5)]))];
    var images := [
        SnapshotImage(id1, arch + "/" + id1, 0, None, false, false, None),
        SnapshotImage(id2, arch + "/" + id2, 5, None, false, false, None)];
    assert images[0] == Entry(found[0], id1, map[]);
    assert images[1] == Entry(found[1], id2, map[]);
    forall k | 0 <= k < 2
      ensures Uuids.Parse(AfterLast(found[k].path, '/')) == Ok(images[k].id)
      ensures images[k] == Entry(found[k], images[k].id, map[])
    {
      if k == 0 {
        assert found[k] == found[0] && images[k] == images[0];
      } else {
        assert found[k] == found[1] && images[k] == images[1];
      }
    }
    assert Built(images, found, map[]);
    RemoveOfTwo(images[0], images[1]);
  }

  /** A directory named by the written form of a UUID is named by that
      UUID. */
  lemma NamedByUuid(parent: string, id: string)
    requires Uuids.Canonical(id)
    ensures Uuids.Parse(AfterLast(parent + "/" + id, '/')) == Ok(id)
  {
    assert '/' !in id by {
      assert forall i :: 0 <= i < 36 ==> id[i] != '/';
    }
    AfterLastOfJoin(parent, '/', id);
    assert parent + "/" + id == parent + ['/'] + id;
    Uuids.ParseCanonical(id);
  }

  /** The recorded test end to end: a cache initialized over the example
      tree, with nothing listed upstream, holds the two images with a total
      of 5 bytes; removing the second deletes its directory and leaves the
      first, with a total of 0. */
  method ExampleRun(root: string, id1: string, id2: string) returns (cache: SnapshotCache)
    requires root != "" && root[|root| - 1] != '/'
    requires Uuids.Canonical(id1) && Uuids.Canonical(id2) && id1 != id2
    ensures cache.listings == 1
    ensures cache.deleted == [ExampleArch(root) + "/" + id2]
    ensures |cache.snapshots| == 1 && cache.snapshots[0].id == id1 && cache.TotalSize() == 0
  {
    cache := new SnapshotCache(root);
    ExampleCollected(root, id1, id2);
    ExampleImages(root, id1, id2);
    var arch := ExampleArch(root);
    var images := [
        SnapshotImage(id1, arch + "/" + id1, 0, None, false, false, None),
        SnapshotImage(id2, arch + "/" + id2, 5, None, false, false, None)];
    var error := cache.Initialize(Some(ExampleTree(id1, id2)), Ok([]));
    assert error.None?;
    assert ReadAll([]) == [];
    assert cache.snapshots[0] == images[0] && cache.snapshots[1] == images[1];
    assert cache.snapshots == images;
    assert cache.TotalSize() == 5;
    var second := cache.snapshots[1];
    var removed := cache.Remove(second, true);
  }
}
