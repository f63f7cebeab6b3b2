/** The snapshot manager's listing (changes_lxc_wrapper/cli/manager.py): the
    snapshot directories under the cache path, each with its id, its path
    and its size. The manager's `collect_files` and `get_directory_size`
    are the same code as the snapshot cache's `_collect_files` and
    `get_directory_size`, and are modelled once, by
    `SnapshotCaching.CollectFiles` and `SnapshotCaching.GetDirectorySize`. */
module Manager {
  import opened Wrappers
  import opened Text
  import opened FileTree
  import SnapshotCaching
  import Uuids

  /** `SnapshotInfo(id, path, size)`. */
  datatype SnapshotInfo = SnapshotInfo(id: string, path: string, size: nat)

  /** The record `run` builds for a collected directory. */
  function InfoOf(f: Found): SnapshotInfo
  {
    SnapshotInfo(AfterLast(f.path, '/'), f.path, DirectorySize(f.dir))
  }

  /** One record per collected directory, in order. */
  function Infos(found: seq<Found>): seq<SnapshotInfo>
  {
    seq(|found|, i requires 0 <= i < |found| => InfoOf(found[i]))
  }

  /** `run` on a cache path whose disk holds `tree`: collects the snapshot
      directories and builds, in the loop, one record per directory with
      the text after its last `/` and its directory size. A cache path that
      is a file makes the collection raise. */
  method Run(cachePath: string, tree: Option<Node>) returns (r: Result<seq<SnapshotInfo>, FsError>)
    ensures tree.None? ==> r == Ok([])
    ensures CollectSpec(cachePath, tree).Err? ==> r == Err(CollectSpec(cachePath, tree).error)
    ensures CollectSpec(cachePath, tree).Ok? ==> r == Ok(Infos(CollectSpec(cachePath, tree).value))
  {
    var collected := SnapshotCaching.CollectFiles(cachePath, tree);
    if collected.Err? {
      return Err(collected.error);
    }
    var pathList := collected.value;
    var snapshots: seq<SnapshotInfo> := [];
    for i := 0 to |pathList|
      invariant |snapshots| == i
      invariant forall k :: 0 <= k < i ==> snapshots[k] == InfoOf(pathList[k])
    {
      var path := pathList[i];
      var size := SnapshotCaching.GetDirectorySize(path.path, path.dir);
      snapshots := snapshots + [SnapshotInfo(AfterLast(path.path, '/'), path.path, size)];
    }
    assert snapshots == Infos(pathList);
    return Ok(snapshots);
  }

  /** Every directory four levels below the cache path
      (`dist/release/arch/id`) has its record. */
  lemma ListedIfReached(root: string, children: seq<Node>, f: Found)
    requires Reaches(root, children, 4, f)
    ensures InfoOf(f) in Infos(Collected(root, children, 1))
  {
    var found := Collected(root, children, 1);
    CollectedExactly(root, children, 1, f);
    var i :| 0 <= i < |found| && found[i] == f;
    assert Infos(found)[i] == InfoOf(f);
  }

  /** Every record is that of a directory four levels below the cache path. */
  lemma ReachedIfListed(root: string, children: seq<Node>, i: nat)
    requires i < |Collected(root, children, 1)|
    ensures var found := Collected(root, children, 1);
      Reaches(root, children, 4, found[i]) && Infos(found)[i] == InfoOf(found[i])
  {
    var found := Collected(root, children, 1);
    CollectedExactly(root, children, 1, found[i]);
  }

  /** No entry name holds a `/`, at any depth. */
  predicate PlainNames(nodes: seq<Node>)
    decreases nodes
  {
    forall i :: 0 <= i < |nodes| ==>
      '/' !in nodes[i].name && (nodes[i].Dir? ==> PlainNames(nodes[i].children))
  }

  /** The text after the last `/` of a joined path is the name joined. */
  lemma JoinedName(path: string, name: string)
    requires '/' !in name
    ensures AfterLast(Join(path, name), '/') == name
  {
    if path == "" {
      assert Join(path, name) == name;
    } else if path[|path| - 1] == '/' {
      var head := path[..|path| - 1];
      assert path == head + ['/'];
      assert Join(path, name) == head + ['/'] + name;
      AfterLastOfJoin(head, '/', name);
    } else {
      assert Join(path, name) == path + ['/'] + name;
      AfterLastOfJoin(path, '/', name);
    }
  }

  lemma PlainNamesCons(nodes: seq<Node>)
    requires nodes != [] && PlainNames(nodes)
    ensures '/' !in nodes[0].name && (nodes[0].Dir? ==> PlainNames(nodes[0].children))
    ensures PlainNames(nodes[1..])
  {
    forall i | 0 <= i < |nodes[1..]|
      ensures '/' !in nodes[1..][i].name && (nodes[1..][i].Dir? ==> PlainNames(nodes[1..][i].children))
    {
      assert nodes[1..][i] == nodes[i + 1];
    }
  }

  /** What the loop appends for one entry with a plain name ends in the
      name of its directory. */
  lemma {:induction false} CollectedOneNames(path: string, n: Node, depth: nat, f: Found)
    requires '/' !in n.name && (n.Dir? ==> PlainNames(n.children))
    requires f in CollectedOne(path, n, depth)
    ensures AfterLast(f.path, '/') == f.dir.name
    decreases n, 0
  {
    if depth <= 3 {
      CollectedNames(Join(path, n.name), n.children, depth + 1, f);
    } else {
      JoinedName(path, n.name);
    }
  }

  /** With plain names, every collected directory's path ends in its own
      name. */
  lemma {:induction false} CollectedNames(path: string, nodes: seq<Node>, depth: nat, f: Found)
    requires PlainNames(nodes) && f in Collected(path, nodes, depth)
    ensures AfterLast(f.path, '/') == f.dir.name
    decreases nodes, 1
  {
    CollectedCons(path, nodes, depth);
    PlainNamesCons(nodes);
    if f in CollectedOne(path, nodes[0], depth) {
      CollectedOneNames(path, nodes[0], depth, f);
    } else {
      CollectedNames(path, nodes[1..], depth, f);
    }
  }

  /** With plain names, each record's id is the name of its directory, and
      its size is the size of the files below it. */
  lemma ListedIds(root: string, children: seq<Node>)
    requires PlainNames(children)
    ensures var found := Collected(root, children, 1); var infos := Infos(found);
      forall i :: 0 <= i < |infos| ==>
        infos[i].id == found[i].dir.name && infos[i].path == found[i].path && infos[i].size == DirectorySize(found[i].dir)
  {
    var found := Collected(root, children, 1);
    forall i | 0 <= i < |found|
      ensures AfterLast(found[i].path, '/') == found[i].dir.name
    {
      CollectedNames(root, children, 1, found[i]);
    }
  }

  /** The manager and the snapshot cache agree on every collected directory
      whose name is a UUID: the same path and size, and the cache's id is
      the UUID the manager's id (the directory name) denotes, whatever the
      service lists. */
  lemma AgreesWithCache(found: seq<Found>, images: seq<SnapshotCaching.SnapshotImage>, upstream: map<string, SnapshotCaching.Meta>)
    requires SnapshotCaching.Built(images, found, upstream)
    ensures var infos := Infos(found);
      && |infos| == |images|
      && forall i :: 0 <= i < |infos| ==>
        Uuids.Parse(infos[i].id) == Ok(images[i].id) && infos[i].path == images[i].path && infos[i].size == images[i].size
  {
    var infos := Infos(found);
    forall i | 0 <= i < |infos|
      ensures Uuids.Parse(infos[i].id) == Ok(images[i].id) && infos[i].path == images[i].path && infos[i].size == images[i].size
    {
      assert infos[i] == InfoOf(found[i]);
      AgreesOne(found[i], images[i], upstream);
    }
  }

  /** `AgreesWithCache` for one directory. */
  lemma AgreesOne(f: Found, image: SnapshotCaching.SnapshotImage, upstream: map<string, SnapshotCaching.Meta>)
    requires SnapshotCaching.Builds(image, f, upstream)
    ensures Uuids.Parse(InfoOf(f).id) == Ok(image.id) && InfoOf(f).path == image.path && InfoOf(f).size == image.size
  {
  }
}
