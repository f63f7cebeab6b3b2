/** The filesystem as the snapshot cache and the manager see it: a tree of
    named files (with their size in bytes) and directories, `os.path.join`,
    the directories `os.walk` visits, and the two quantities the walks
    compute — the recursive sum of file sizes, and the directories exactly
    four levels below a root. */
module FileTree {
  import opened Wrappers

  /** One directory entry; `children` is in `os.listdir` order. */
  datatype Node = File(name: string, size: nat) | Dir(name: string, children: seq<Node>)

  /** `os.path.join(path, name)` for a name without a leading `/`. */
  function Join(path: string, name: string): string
  {
    if path == "" || path[|path| - 1] == '/' then path + name else path + "/" + name
  }

  /** A joined path starts with `path`, ends with `name`, and puts exactly
      one `/` between them unless `path` is empty or already ends in one. */
  lemma JoinShape(path: string, name: string)
    ensures var r := Join(path, name);
      && path <= r && r[|r| - |name|..] == name
      && |r| == |path| + |name| + (if path == "" || path[|path| - 1] == '/' then 0 else 1)
      && (path != "" ==> r[|path| - 1] == '/' || r[|path|] == '/')
  {
    var r := Join(path, name);
    if path == "" || path[|path| - 1] == '/' {
      assert r == path + name;
    } else {
      assert r == path + "/" + name;
      assert r[|path|] == '/';
    }
  }

  /** The sizes of every file anywhere below `nodes`. */
  function TreeSize(nodes: seq<Node>): nat
    decreases nodes
  {
    if nodes == [] then 0
    else
      (match nodes[0]
       case File(_, size) => size
       case Dir(_, children) => TreeSize(children))
      + TreeSize(nodes[1..])
  }

  /** What `get_directory_size` promises for a path holding `n`: the sizes of
      all files below it; a path naming a file has no walk and size 0. */
  function DirectorySize(n: Node): nat
  {
    match n
    case File(_, _) => 0
    case Dir(_, children) => TreeSize(children)
  }

  /** A file name of a walk step, with what `os.path.getsize` gives for it. */
  datatype FileEntry = FileEntry(name: string, size: nat)

  /** One triple `(dirpath, dirnames, filenames)` of `os.walk`. */
  datatype WalkStep = WalkStep(dirpath: string, dirnames: seq<string>, files: seq<FileEntry>)

  function DirNames(nodes: seq<Node>): seq<string>
  {
    if nodes == [] then []
    else (if nodes[0].Dir? then [nodes[0].name] else []) + DirNames(nodes[1..])
  }

  function FilesIn(nodes: seq<Node>): seq<FileEntry>
  {
    if nodes == [] then []
    else (if nodes[0].File? then [FileEntry(nodes[0].name, nodes[0].size)] else []) + FilesIn(nodes[1..])
  }

  /** The steps of the top-down walk of every directory among `nodes`, each
      below `path`, in listing order. */
  function WalkAll(path: string, nodes: seq<Node>): seq<WalkStep>
    decreases nodes
  {
    if nodes == [] then []
    else
      (match nodes[0]
       case File(_, _) => []
       case Dir(name, children) =>
         var p := Join(path, name);
         [WalkStep(p, DirNames(children), FilesIn(children))] + WalkAll(p, children))
      + WalkAll(path, nodes[1..])
  }

  /** `os.walk(path)` when `path` holds `n`: nothing for a file. */
  function Walk(path: string, n: Node): seq<WalkStep>
  {
    match n
    case File(_, _) => []
    case Dir(_, children) => [WalkStep(path, DirNames(children), FilesIn(children))] + WalkAll(path, children)
  }

  /** The sizes of a list of files. */
  function FileSizes(files: seq<FileEntry>): nat
  {
    if files == [] then 0 else files[0].size + FileSizes(files[1..])
  }

  /** What the loops of `get_directory_size` add up over a walk. */
  function StepsSize(steps: seq<WalkStep>): nat
  {
    if steps == [] then 0 else FileSizes(steps[0].files) + StepsSize(steps[1..])
  }

  lemma {:induction false} StepsSizeAppend(a: seq<WalkStep>, b: seq<WalkStep>)
    ensures StepsSize(a + b) == StepsSize(a) + StepsSize(b)
  {
    if a != [] {
      assert (a + b)[1..] == a[1..] + b;
      StepsSizeAppend(a[1..], b);
    } else {
      assert a + b == b;
    }
  }

  lemma {:induction false} FileSizesAppend(a: seq<FileEntry>, b: seq<FileEntry>)
    ensures FileSizes(a + b) == FileSizes(a) + FileSizes(b)
  {
    if a != [] {
      assert (a + b)[1..] == a[1..] + b;
      FileSizesAppend(a[1..], b);
    } else {
      assert a + b == b;
    }
  }

  /** The files of each directory, added up over the walk below `nodes`, with
      the files directly among `nodes`, are all the files below `nodes`. */
  lemma {:induction false} WalkAllSize(path: string, nodes: seq<Node>)
    ensures StepsSize(WalkAll(path, nodes)) + FileSizes(FilesIn(nodes)) == TreeSize(nodes)
    decreases nodes
  {
    if nodes != [] {
      var head := if nodes[0].File? then [FileEntry(nodes[0].name, nodes[0].size)] else [];
      assert FilesIn(nodes) == head + FilesIn(nodes[1..]);
      FileSizesAppend(head, FilesIn(nodes[1..]));
      WalkAllSize(path, nodes[1..]);
      match nodes[0]
      case File(_, _) =>
        assert head[1..] == [];
        assert FileSizes(head) == nodes[0].size;
        assert TreeSize(nodes) == nodes[0].size + TreeSize(nodes[1..]);
        assert WalkAll(path, nodes) == WalkAll(path, nodes[1..]);
      case Dir(name, children) =>
        assert FileSizes(head) == 0;
        var p := Join(path, name);
        var step := WalkStep(p, DirNames(children), FilesIn(children));
        WalkAllSize(p, children);
        StepsSizeAppend([step], WalkAll(p, children));
        StepsSizeAppend([step] + WalkAll(p, children), WalkAll(path, nodes[1..]));
    }
  }

  /** Adding up the file sizes of every step of `os.walk(path)` gives the
      recursive sum of file sizes below `path`. */
  lemma WalkSize(path: string, n: Node)
    ensures StepsSize(Walk(path, n)) == DirectorySize(n)
  {
    if n.Dir? {
      var step := WalkStep(path, DirNames(n.children), FilesIn(n.children));
      WalkAllSize(path, n.children);
      StepsSizeAppend([step], WalkAll(path, n.children));
    }
  }

  /** A directory the collector reports: its path and what it holds. */
  datatype Found = Found(path: string, dir: Node)

  function Paths(fs: seq<Found>): (r: seq<string>)
    ensures |r| == |fs| && forall i :: 0 <= i < |fs| ==> r[i] == fs[i].path
  {
    if fs == [] then [] else [fs[0].path] + Paths(fs[1..])
  }

  /** What the loop of `_r_collect_files(path, _stack, depth)` appends to the
      stack for the entries `nodes` of `path`: files are skipped, a directory
      is descended into while `depth <= 3` and reported otherwise. */
  function Collected(path: string, nodes: seq<Node>, depth: nat): seq<Found>
    decreases nodes
  {
    if nodes == [] then []
    else
      (match nodes[0]
       case File(_, _) => []
       case Dir(name, children) =>
         if depth <= 3 then Collected(Join(path, name), children, depth + 1)
         else [Found(Join(path, name), nodes[0])])
      + Collected(path, nodes[1..], depth)
  }

  /** `f` is a directory reached from `path` through `levels` directories,
      the first of them among `nodes`. */
  ghost predicate Reaches(path: string, nodes: seq<Node>, levels: nat, f: Found)
    decreases nodes
  {
    exists i :: 0 <= i < |nodes| && nodes[i].Dir? &&
      (if levels <= 1 then f == Found(Join(path, nodes[i].name), nodes[i])
       else Reaches(Join(path, nodes[i].name), nodes[i].children, levels - 1, f))
  }

  lemma ReachesCons(path: string, nodes: seq<Node>, levels: nat, f: Found)
    requires nodes != []
    ensures Reaches(path, nodes, levels, f) <==>
      (nodes[0].Dir? &&
        (if levels <= 1 then f == Found(Join(path, nodes[0].name), nodes[0])
         else Reaches(Join(path, nodes[0].name), nodes[0].children, levels - 1, f)))
      || Reaches(path, nodes[1..], levels, f)
  {
    if Reaches(path, nodes, levels, f) {
      var i :| 0 <= i < |nodes| && nodes[i].Dir? &&
        (if levels <= 1 then f == Found(Join(path, nodes[i].name), nodes[i])
         else Reaches(Join(path, nodes[i].name), nodes[i].children, levels - 1, f));
      if i > 0 {
        assert nodes[1..][i - 1] == nodes[i];
      }
    }
    if Reaches(path, nodes[1..], levels, f) {
      var i :| 0 <= i < |nodes[1..]| && nodes[1..][i].Dir? &&
        (if levels <= 1 then f == Found(Join(path, nodes[1..][i].name), nodes[1..][i])
         else Reaches(Join(path, nodes[1..][i].name), nodes[1..][i].children, levels - 1, f));
      assert nodes[i + 1] == nodes[1..][i];
    }
  }

  /** What the loop appends for one entry `n` of `path`. */
  function CollectedOne(path: string, n: Node, depth: nat): seq<Found>
  {
    match n
    case File(_, _) => []
    case Dir(name, children) =>
      if depth <= 3 then Collected(Join(path, name), children, depth + 1)
      else [Found(Join(path, name), n)]
  }

  lemma CollectedCons(path: string, nodes: seq<Node>, depth: nat)
    requires nodes != []
    ensures Collected(path, nodes, depth) == CollectedOne(path, nodes[0], depth) + Collected(path, nodes[1..], depth)
  {
  }

  /** One entry: reported, or descended into, exactly as `Reaches` says. */
  lemma {:induction false} CollectedOneExactly(path: string, n: Node, depth: nat, f: Found)
    requires 1 <= depth <= 4
    ensures f in CollectedOne(path, n, depth) <==>
      (n.Dir? &&
        (if 5 - depth <= 1 then f == Found(Join(path, n.name), n)
         else Reaches(Join(path, n.name), n.children, 5 - depth - 1, f)))
    decreases n, 0
  {
    if n.Dir? && depth <= 3 {
      CollectedExactly(Join(path, n.name), n.children, depth + 1, f);
    }
  }

  /** The collector started at `depth` reports exactly the directories
      `5 - depth` levels below `path`: with `depth` 1, the entries
      `dist/release/arch/id` of the cache root, and nothing deeper. */
  lemma {:induction false} CollectedExactly(path: string, nodes: seq<Node>, depth: nat, f: Found)
    requires 1 <= depth <= 4
    ensures f in Collected(path, nodes, depth) <==> Reaches(path, nodes, 5 - depth, f)
    decreases nodes, 1
  {
    if nodes != [] {
      CollectedCons(path, nodes, depth);
      ReachesCons(path, nodes, 5 - depth, f);
      CollectedOneExactly(path, nodes[0], depth, f);
      CollectedExactly(path, nodes[1..], depth, f);
    }
  }

  /** One more entry at the end of a listing adds what the loop appends for it. */
  lemma CollectedSnoc(path: string, a: seq<Node>, x: Node, depth: nat)
    ensures Collected(path, a + [x], depth) == Collected(path, a, depth) + CollectedOne(path, x, depth)
  {
    CollectedAppend(path, a, [x], depth);
    CollectedCons(path, [x], depth);
    assert [x][1..] == [];
  }

  lemma {:induction false} CollectedAppend(path: string, a: seq<Node>, b: seq<Node>, depth: nat)
    ensures Collected(path, a + b, depth) == Collected(path, a, depth) + Collected(path, b, depth)
  {
    if a == [] {
      assert a + b == b;
    } else {
      assert (a + b)[0] == a[0] && (a + b)[1..] == a[1..] + b;
      CollectedAppend(path, a[1..], b, depth);
    }
  }

  /** Every reported entry is a directory below `path`. */
  lemma {:induction false} CollectedAreDirs(path: string, nodes: seq<Node>, depth: nat)
    ensures forall f :: f in Collected(path, nodes, depth) ==> f.dir.Dir? && path <= f.path
    decreases nodes
  {
    if nodes != [] {
      CollectedCons(path, nodes, depth);
      CollectedAreDirs(path, nodes[1..], depth);
      match nodes[0]
      case File(_, _) =>
      case Dir(name, children) =>
        JoinShape(path, name);
        if depth <= 3 {
          CollectedAreDirs(Join(path, name), children, depth + 1);
        }
    }
  }

  /** Why `_collect_files` can fail: `os.listdir` on a root that is a file. */
  datatype FsError = NotADirectory(path: string)

  /** What `_collect_files(root)` returns when the disk at `root` holds
      `tree` (`None` when the root does not exist). */
  function CollectSpec(root: string, tree: Option<Node>): Result<seq<Found>, FsError>
  {
    match tree
    case None => Ok([])
    case Some(File(_, _)) => Err(NotADirectory(root))
    case Some(Dir(_, children)) => Ok(Collected(root, children, 1))
  }
}
