/** The LXC container driver (changes_lxc_wrapper/container.py). The lxc
    runtime, the host's filesystem and subprocesses are not modelled as
    such: a `Runtime` value says which containers and paths exist and what
    each call answers, and a container records every call it makes, in
    order, in its `log`. Each operation is specified by its `Plan`: the
    steps the source takes, each with the assertion, if any, that checks its
    result; a run stops at the first step whose check fails. */
module Containers {
  import opened Wrappers
  import opened Text
  import opened FileTree

  const SnapshotCache := "/var/cache/lxc/download"
  const Dist := "ubuntu"
  const Arch := "amd64"
  /** The files whose presence lets `ensure_image_cached` skip the download. */
  const RequiredFiles := ["rootfs.tar.xz", "config", "snapshot_id"]
  const SearchPath := "/usr/local/sbin:/usr/local/bin:/usr/sbin:/usr/bin:/sbin:/bin"
  const SudoersText := "Defaults    env_reset\nDefaults    !requiretty\n\n# Allow all sudoers.\nALL  ALL=(ALL) NOPASSWD:ALL"
  const ImageConfigText := "lxc.include = LXC_TEMPLATE_CONFIG/ubuntu.common.conf\nlxc.arch = x86_64\n"
  const MissingBucket := "Missing S3 bucket configuration"
  const NotRunning := "Cannot run cmd in non-RUNNING container"
  /** The message of an `assert` written without one. */
  const BareAssert := ""
  /** What `subprocess.check_call` raises on a non-zero exit, named by its
      exception class: the command and the exit status that `str()` of the
      exception also gives (`Command '...' returned non-zero exit status N.`)
      are not part of this label. */
  const CalledProcessError := "CalledProcessError"

  /** Python truth of an optional string: `None` and `''` are false. */
  predicate Truthy(s: Option<string>)
  {
    s.Some? && s.value != ""
  }

  /** `get_home_dir(user)`. */
  function HomeDir(user: string): string
  {
    if user == "root" then "/root" else "/home/" + user
  }

  /** Different users get different home directories. */
  lemma HomeDirInjective(u: string, v: string)
    requires u != v
    ensures HomeDir(u) != HomeDir(v)
  {
    if u == "root" {
      assert HomeDir(v)[1] == 'h' != HomeDir(u)[1];
    } else if v == "root" {
      assert HomeDir(u)[1] == 'h' != HomeDir(v)[1];
    } else {
      assert HomeDir(u)[6..] == u && HomeDir(v)[6..] == v;
    }
  }

  /** The home directory's last component is the user's name. */
  lemma HomeDirEndsInUser(user: string)
    requires '/' !in user
    ensures AfterLast(HomeDir(user), '/') == user
  {
    if user == "root" {
      assert HomeDir(user) == "" + ['/'] + "root";
      AfterLastOfJoin("", '/', "root");
    } else {
      assert HomeDir(user) == "/home" + ['/'] + user;
      AfterLastOfJoin("/home", '/', user);
    }
  }

  /** `get_image_path(snapshot)` for a container of `release`. */
  function ImagePath(release: string, snapshot: string): string
  {
    Dist + "/" + release + "/" + Arch + "/" + snapshot
  }

  /** The image path's last component is the snapshot id. */
  lemma ImagePathEndsInSnapshot(release: string, snapshot: string)
    requires '/' !in snapshot
    ensures AfterLast(ImagePath(release, snapshot), '/') == snapshot
  {
    var p := ImagePath(release, snapshot);
    assert p == (Dist + "/" + release + "/" + Arch) + ['/'] + snapshot;
    AfterLastOfJoin(Dist + "/" + release + "/" + Arch, '/', snapshot);
  }

  /** Where an image lives in the local cache. */
  function LocalImagePath(release: string, snapshot: string): string
  {
    SnapshotCache + "/" + ImagePath(release, snapshot)
  }

  /** Where an image lives in the bucket. */
  function RemoteImagePath(bucket: string, release: string, snapshot: string): string
  {
    "s3://" + bucket + "/" + ImagePath(release, snapshot)
  }

  /** The `rootfs` property: the text after the last `:` of the
      `lxc.rootfs` item, or all of it. */
  function Rootfs(item: string): (r: string)
    ensures ':' !in r
  {
    AfterLast(item, ':')
  }

  /** A plain path is its own root filesystem, and an overlay
      `overlayfs:base:delta` gives its delta directory. */
  lemma RootfsCases(path: string, base: string, delta: string)
    requires ':' !in path && ':' !in delta
    ensures Rootfs(path) == path
    ensures Rootfs("overlayfs:" + base + ":" + delta) == delta
  {
    assert "overlayfs:" + base + ":" + delta == ("overlayfs:" + base) + [':'] + delta;
    AfterLastOfJoin("overlayfs:" + base, ':', delta);
  }

  /** The working directory of `run`: the home directory when none is
      given, and `/` whatever directory is given. */
  function Cwd(cwd: Option<string>, user: string): string
  {
    if cwd.None? then HomeDir(user) else "/"
  }

  /** The environment `run` builds before the caller's `env`. */
  function BaseEnv(user: string, cwd: string, name: string, hostname: string): map<string, string>
  {
    map["USER" := user, "HOME" := HomeDir(user), "PWD" := cwd,
        "DEBIAN_FRONTEND" := "noninteractive", "LXC_NAME" := name,
        "HOST_HOSTNAME" := hostname, "PATH" := SearchPath]
  }

  const BaseKeys := {"USER", "HOME", "PWD", "DEBIAN_FRONTEND", "LXC_NAME", "HOST_HOSTNAME", "PATH"}

  /** The environment of a command: the base, updated by `env`. */
  function CommandEnv(user: string, cwd: string, name: string, hostname: string, env: Option<map<string, string>>): map<string, string>
  {
    if env.Some? then BaseEnv(user, cwd, name, hostname) + env.value else BaseEnv(user, cwd, name, hostname)
  }

  /** The keys are the fixed ones and the caller's; the caller's values win
      and the fixed ones fill in the rest. */
  lemma CommandEnvMeaning(user: string, cwd: string, name: string, hostname: string, env: Option<map<string, string>>)
    ensures var e := CommandEnv(user, cwd, name, hostname, env);
      var extra := if env.Some? then env.value else map[];
      && e.Keys == BaseKeys + extra.Keys
      && (forall k :: k in extra ==> e[k] == extra[k])
      && (forall k :: k in BaseKeys && k !in extra ==> e[k] == BaseEnv(user, cwd, name, hostname)[k])
  {
    assert BaseEnv(user, cwd, name, hostname).Keys == BaseKeys;
  }

  /** The command as run: a user other than `root` goes through `sudo`. */
  function Command(user: string, cmd: seq<string>): seq<string>
  {
    if user != "root" then ["sudo", "-EHu", user] + cmd else cmd
  }

  lemma CommandMeaning(user: string, cmd: seq<string>)
    ensures user == "root" ==> Command(user, cmd) == cmd
    ensures user != "root" ==>
      |Command(user, cmd)| == |cmd| + 3 && Command(user, cmd)[..3] == ["sudo", "-EHu", user] && Command(user, cmd)[3..] == cmd
  {
  }

  /** A call the container makes to the host or to lxc. */
  datatype Effect =
    | MakeDirs(path: string)
    | Sync(source: string, dest: string)                           // `aws s3 sync`
    | CreateFrom(container: string, template: string, args: seq<string>)
    | Clone(base: string, newName: string)                         // keeping the name, as a snapshot
    | LoadConfig
    | PreLaunch(hook: string, rootfs: string)                       // run on the host in the root filesystem
    | SetConfig(key: string, value: string)
    | AppendConfig(key: string, value: string)
    | Start
    | WaitForNetwork                                               // `get_ips(family='inet', timeout=30)`
    | Exec(cmd: seq<string>, cwd: string, env: map<string, string>) // `attach_wait` with a clear environment
    | Copy(source: string, dest: string)
    | WriteFile(path: string, text: string)
    | HostCommand(argv: seq<string>)
    | Stop
    | WaitState(state: string, timeout: int)
    | Destroy

  /** What the source does next: make a call, checking its result with the
      assertion message `check` if any, or fail an assertion outright. */
  datatype Step = Do(effect: Effect, check: Option<string>) | Abort(message: string)

  /** What the environment holds and answers: the defined and the running
      containers, the host paths that exist, the host name, and the status
      of each call (`0`, or `True` for lxc calls, where absent). */
  datatype Runtime = Runtime(
    containers: set<string>,
    running: set<string>,
    paths: set<string>,
    hostname: string,
    codes: map<Effect, int>)

  function Code(rt: Runtime, e: Effect): int
  {
    if e in rt.codes then rt.codes[e] else 0
  }

  predicate Fails(rt: Runtime, s: Step)
  {
    s.Abort? || (s.check.Some? && Code(rt, s.effect) != 0)
  }

  /** The calls made when `plan` runs: each step in turn, up to and
      including the first whose check fails. */
  function Executed(rt: Runtime, plan: seq<Step>): seq<Effect>
  {
    if plan == [] then []
    else if plan[0].Abort? then []
    else [plan[0].effect] + (if Fails(rt, plan[0]) then [] else Executed(rt, plan[1..]))
  }

  /** The assertion that fails when `plan` runs, if any. */
  function Failure(rt: Runtime, plan: seq<Step>): Option<string>
  {
    if plan == [] then None
    else if plan[0].Abort? then Some(plan[0].message)
    else if Fails(rt, plan[0]) then plan[0].check
    else Failure(rt, plan[1..])
  }

  /** The calls of a plan, whatever they answer. */
  function Effects(plan: seq<Step>): seq<Effect>
  {
    if plan == [] then []
    else if plan[0].Abort? then Effects(plan[1..])
    else [plan[0].effect] + Effects(plan[1..])
  }

  /** Running two plans one after the other. */
  lemma {:induction false} Sequenced(rt: Runtime, p: seq<Step>, q: seq<Step>)
    ensures Executed(rt, p + q) == Executed(rt, p) + (if Failure(rt, p).Some? then [] else Executed(rt, q))
    ensures Failure(rt, p + q) == (if Failure(rt, p).Some? then Failure(rt, p) else Failure(rt, q))
  {
    if p == [] {
      assert p + q == q;
    } else {
      assert (p + q)[1..] == p[1..] + q;
      Sequenced(rt, p[1..], q);
      if !p[0].Abort? && !Fails(rt, p[0]) {
        Associative([p[0].effect], Executed(rt, p[1..]), if Failure(rt, p[1..]).Some? then [] else Executed(rt, q));
      }
    }
  }

  /** A plan that runs to the end makes every one of its calls, in order. */
  lemma {:induction false} CompleteRun(rt: Runtime, plan: seq<Step>)
    requires Failure(rt, plan).None?
    ensures Executed(rt, plan) == Effects(plan)
  {
    if plan != [] {
      CompleteRun(rt, plan[1..]);
    }
  }

  /** A failed run makes a prefix of the plan's calls. */
  lemma {:induction false} ExecutedIsPrefix(rt: Runtime, plan: seq<Step>)
    ensures Executed(rt, plan) <= Effects(plan)
  {
    if plan != [] && !plan[0].Abort? && !Fails(rt, plan[0]) {
      ExecutedIsPrefix(rt, plan[1..]);
    }
  }

  lemma {:induction false} EffectsAppend(p: seq<Step>, q: seq<Step>)
    ensures Effects(p + q) == Effects(p) + Effects(q)
  {
    if p == [] {
      assert p + q == q;
    } else {
      assert (p + q)[1..] == p[1..] + q;
      EffectsAppend(p[1..], q);
      if !p[0].Abort? {
        Associative([p[0].effect], Effects(p[1..]), Effects(q));
      }
    }
  }

  /** A plan of calls alone makes each of them. */
  lemma {:induction false} EffectsOfCalls(plan: seq<Step>)
    requires forall i | 0 <= i < |plan| :: plan[i].Do?
    ensures |Effects(plan)| == |plan|
    ensures forall i | 0 <= i < |plan| :: Effects(plan)[i] == plan[i].effect
  {
    if plan != [] {
      EffectsOfCalls(plan[1..]);
    }
  }

  /** What lxc reports for the container. */
  datatype Lxc = Lxc(defined: bool, running: bool)

  /** How a call changes the container `name`, given whether it succeeds. */
  function After(name: string, st: Lxc, e: Effect, ok: bool): Lxc
  {
    if !ok then st
    else match e
      case CreateFrom(c, _, _) => if c == name then st.(defined := true) else st
      case Clone(_, n) => if n == name then st.(defined := true) else st
      case Start => st.(running := true)
      case Stop => st.(running := false)
      case Destroy => Lxc(false, false)
      case _ => st
  }

  /** A call that does not change what lxc reports for the container. */
  predicate Inert(e: Effect)
  {
    !e.CreateFrom? && !e.Clone? && !e.Start? && !e.Stop? && !e.Destroy?
  }

  /** The container's state after `effects`. */
  function Replay(name: string, rt: Runtime, st: Lxc, effects: seq<Effect>): Lxc
    decreases |effects|
  {
    if effects == [] then st
    else Replay(name, rt, After(name, st, effects[0], Code(rt, effects[0]) == 0), effects[1..])
  }

  lemma {:induction false} ReplayAppend(name: string, rt: Runtime, st: Lxc, a: seq<Effect>, b: seq<Effect>)
    ensures Replay(name, rt, st, a + b) == Replay(name, rt, Replay(name, rt, st, a), b)
    decreases |a|
  {
    if a == [] {
      assert a + b == b;
    } else {
      assert (a + b)[1..] == a[1..] + b;
      ReplayAppend(name, rt, After(name, st, a[0], Code(rt, a[0]) == 0), a[1..], b);
    }
  }

  /** What a container has done since `log0` and `st0`, as the run of a plan. */
  predicate Ran(name: string, rt: Runtime, log0: seq<Effect>, st0: Lxc, plan: seq<Step>, log: seq<Effect>, st: Lxc)
  {
    log == log0 + Executed(rt, plan) && st == Replay(name, rt, st0, Executed(rt, plan))
  }

  /** Running `q` after a plan `p` that did not fail is running `p + q`. */
  lemma Chain(name: string, rt: Runtime, log0: seq<Effect>, st0: Lxc, p: seq<Step>, log1: seq<Effect>, st1: Lxc,
              q: seq<Step>, log2: seq<Effect>, st2: Lxc)
    requires Ran(name, rt, log0, st0, p, log1, st1) && Failure(rt, p).None?
    requires Ran(name, rt, log1, st1, q, log2, st2)
    ensures Ran(name, rt, log0, st0, p + q, log2, st2)
    ensures Failure(rt, p + q) == Failure(rt, q)
  {
    Sequenced(rt, p, q);
    ReplayAppend(name, rt, st0, Executed(rt, p), Executed(rt, q));
    Associative(log0, Executed(rt, p), Executed(rt, q));
  }

  /** After a failed plan `p`, nothing of `q` runs. */
  lemma Abandon(name: string, rt: Runtime, log0: seq<Effect>, st0: Lxc, p: seq<Step>, log1: seq<Effect>, st1: Lxc, q: seq<Step>)
    requires Ran(name, rt, log0, st0, p, log1, st1) && Failure(rt, p).Some?
    ensures Ran(name, rt, log0, st0, p + q, log1, st1)
    ensures Failure(rt, p + q) == Failure(rt, p)
  {
    Sequenced(rt, p, q);
    assert Executed(rt, p) + [] == Executed(rt, p);
  }

  /** Running `p` and, if it did not fail, `q`, is running `p + q`. */
  lemma Then(name: string, rt: Runtime, log0: seq<Effect>, st0: Lxc, p: seq<Step>, log1: seq<Effect>, st1: Lxc,
             q: seq<Step>, log2: seq<Effect>, st2: Lxc)
    requires Ran(name, rt, log0, st0, p, log1, st1)
    requires Failure(rt, p).Some? ==> log2 == log1 && st2 == st1
    requires Failure(rt, p).None? ==> Ran(name, rt, log1, st1, q, log2, st2)
    ensures Ran(name, rt, log0, st0, p + q, log2, st2)
    ensures Failure(rt, p + q) == if Failure(rt, p).Some? then Failure(rt, p) else Failure(rt, q)
  {
    if Failure(rt, p).Some? {
      Abandon(name, rt, log0, st0, p, log1, st1, q);
    } else {
      Chain(name, rt, log0, st0, p, log1, st1, q, log2, st2);
    }
  }

  /** All the files `ensure_image_cached` looks for are there under `local`. */
  predicate Cached(rt: Runtime, local: string)
  {
    forall i :: 0 <= i < |RequiredFiles| ==> Join(local, RequiredFiles[i]) in rt.paths
  }

  /** `ensure_image_cached(snapshot)`. */
  function EnsurePlan(rt: Runtime, release: string, bucket: Option<string>, snapshot: string): seq<Step>
  {
    var local := LocalImagePath(release, snapshot);
    if Cached(rt, local) then []
    else if !Truthy(bucket) then [Abort(MissingBucket)]
    else
      var remote := RemoteImagePath(bucket.value, release, snapshot);
      (if local in rt.paths then [] else [Do(MakeDirs(local), None)])
      + [Do(Sync(remote, local), Some("Failed to download image " + remote))]
  }

  /** `upload_image(snapshot)`. */
  function UploadPlan(release: string, bucket: Option<string>, snapshot: string): seq<Step>
  {
    if !Truthy(bucket) then [Abort(MissingBucket)]
    else
      var remote := RemoteImagePath(bucket.value, release, snapshot);
      [Do(Sync(LocalImagePath(release, snapshot), remote), Some("Failed to upload image " + remote))]
  }

  /** The call `run` makes for `cmd`. */
  function ExecOf(name: string, hostname: string, cmd: seq<string>, cwd: Option<string>,
                  env: Option<map<string, string>>, user: string): Effect
  {
    var dir := Cwd(cwd, user);
    Exec(Command(user, cmd), dir, CommandEnv(user, dir, name, hostname, env))
  }

  /** `run(cmd, cwd, env, user)`, its exit status checked by `check`. */
  function RunPlan(name: string, rt: Runtime, running: bool, cmd: seq<string>, cwd: Option<string>,
                   env: Option<map<string, string>>, user: string, check: Option<string>): seq<Step>
  {
    if !running then [Abort(NotRunning)]
    else [Do(ExecOf(name, rt.hostname, cmd, cwd, env, user), check)]
  }

  const AptUpdate := ["apt-get", "update", "-y", "--fix-missing"]
  const AptInstall := ["apt-get", "install", "-y", "--force-yes"]

  /** `install(pkgs)`, the status of the install checked by `check`. */
  function InstallPlan(name: string, rt: Runtime, running: bool, pkgs: seq<string>, check: Option<string>): seq<Step>
  {
    RunPlan(name, rt, running, AptUpdate, None, None, "root", Some("Failed updating apt resources"))
    + RunPlan(name, rt, running, AptInstall + pkgs, None, None, "root", check)
  }

  function SudoersPath(rootfs: string): string
  {
    Join(Join(rootfs, "etc"), "sudoers")
  }

  /** `setup_sudoers(user)`: the same file whoever the user. */
  function SudoersPlan(rootfs: string): seq<Step>
  {
    [Do(WriteFile(SudoersPath(rootfs), SudoersText), None),
     Do(HostCommand(["chmod", "0440", SudoersPath(rootfs)]), None)]
  }

  /** The two calls of `SudoersPlan`, one after the other. */
  lemma SudoersRan(name: string, rt: Runtime, rootfs: string, log0: seq<Effect>, st0: Lxc,
                   log1: seq<Effect>, st1: Lxc, log2: seq<Effect>, st2: Lxc)
    requires Ran(name, rt, log0, st0, [Do(WriteFile(SudoersPath(rootfs), SudoersText), None)], log1, st1)
    requires Ran(name, rt, log1, st1, [Do(HostCommand(["chmod", "0440", SudoersPath(rootfs)]), None)], log2, st2)
    ensures Ran(name, rt, log0, st0, SudoersPlan(rootfs), log2, st2)
  {
    var write := Do(WriteFile(SudoersPath(rootfs), SudoersText), None);
    var chmod := Do(HostCommand(["chmod", "0440", SudoersPath(rootfs)]), None);
    assert [write][1..] == [] && [chmod][1..] == [];
    Chain(name, rt, log0, st0, [write], log1, st1, [chmod], log2, st2);
    assert [write] + [chmod] == SudoersPlan(rootfs);
  }

  /** The name a script is copied under, relative to the root filesystem. */
  function ScriptName(scriptId: string): string
  {
    Join("tmp", "script-" + scriptId)
  }

  /** The sudoers file's calls are not checked: they never fail the run. */
  lemma SudoersNeverFails(rt: Runtime, rootfs: string)
    ensures Failure(rt, SudoersPlan(rootfs)) == None
  {
    var plan := SudoersPlan(rootfs);
    assert plan[1..] == [plan[1]] && plan[1..][1..] == [];
    assert !Fails(rt, plan[0]) && !Fails(rt, plan[1]);
    assert Failure(rt, plan[1..]) == Failure(rt, plan[1..][1..]) == None;
  }

  /** `run_script(script_path, user=, cwd=, env=)`. */
  function RunScriptPlan(name: string, rt: Runtime, running: bool, rootfs: string, script: string, scriptId: string,
                         user: string, cwd: Option<string>, env: Option<map<string, string>>): seq<Step>
  {
    if script !in rt.paths then [Abort("Cannot find local script " + script)]
    else
      var inside := "/" + ScriptName(scriptId);
      [Do(Copy(script, Join(rootfs, ScriptName(scriptId))), None)]
      + RunPlan(name, rt, running, ["chmod", "0755", inside], None, None, "root", Some(BareAssert))
      + RunPlan(name, rt, running, [inside], cwd, env, user, Some(BareAssert))
  }

  /** The arguments of the `download` template. */
  function DownloadArgs(release: string, snapshot: string, validate: bool): seq<string>
  {
    ["--dist", Dist, "--release", release, "--arch", Arch, "--variant", snapshot]
    + (if validate then [] else ["--no-validate"])
  }

  /** The arguments of the `ubuntu` template. */
  function UbuntuArgs(release: string, flushCache: bool): seq<string>
  {
    ["--release", release, "--arch", Arch] + (if flushCache then ["--flush-cache"] else [])
  }

  /** `--no-validate` is passed exactly when validation is off. */
  lemma DownloadArgsFlag(release: string, snapshot: string, validate: bool)
    requires release != "--no-validate" && snapshot != "--no-validate"
    ensures "--no-validate" in DownloadArgs(release, snapshot, validate) <==> !validate
  {
    var args := DownloadArgs(release, snapshot, validate);
    if validate {
      assert forall i :: 0 <= i < |args| ==> args[i] != "--no-validate";
    } else {
      assert args[8] == "--no-validate";
    }
  }

  /** `--flush-cache` is passed exactly when asked for. */
  lemma UbuntuArgsFlag(release: string, flushCache: bool)
    requires release != "--flush-cache"
    ensures "--flush-cache" in UbuntuArgs(release, flushCache) <==> flushCache
  {
    var args := UbuntuArgs(release, flushCache);
    if flushCache {
      assert args[4] == "--flush-cache";
    } else {
      assert forall i :: 0 <= i < |args| ==> args[i] != "--flush-cache";
    }
  }

  const CreateFailed := "Failed to create container. Try running this command as root."

  /** A snapshot with no container of its own gets one from the `download`
      template, over the cached image. */
  function FetchPlan(rt: Runtime, release: string, bucket: Option<string>, snap: string, validate: bool): seq<Step>
  {
    if snap in rt.containers then []
    else
      EnsurePlan(rt, release, bucket, snap)
      + [Do(CreateFrom(snap, "download", DownloadArgs(release, snap, validate)), Some("Failed to load cached image: " + snap))]
  }

  /** The first part of `launch`: clone the snapshot, fetching it into a
      container of its own first if there is none; or create the container
      from the `ubuntu` template. */
  function BasePlan(name: string, release: string, snapshot: Option<string>, validate: bool, bucket: Option<string>,
                    rt: Runtime, clean: bool, flushCache: bool): seq<Step>
  {
    if Truthy(snapshot) && !clean then
      var snap := snapshot.value;
      FetchPlan(rt, release, bucket, snap, validate)
      + [Do(Clone(snap, name), Some("Failed to clone: " + snap)), Do(LoadConfig, Some("Unable to reload container config"))]
    else [Do(CreateFrom(name, "ubuntu", UbuntuArgs(release, flushCache)), Some(CreateFailed))]
  }

  /** The middle part of `launch`: the pre-launch hook, the configuration,
      the start and the wait for the network. */
  function BootPlan(rootfs: string, pre: Option<string>): seq<Step>
  {
    (if Truthy(pre) then [Do(PreLaunch(pre.value, rootfs), Some(CalledProcessError))] else [])
    + [Do(SetConfig("lxc.aa_profile", "unconfined"), Some(BareAssert)),
       Do(AppendConfig("lxc.cgroup.devices.allow", "c 10:137 rwm"), Some(BareAssert)),
       Do(AppendConfig("lxc.cgroup.devices.allow", "b 6:* rwm"), Some(BareAssert)),
       Do(Start, Some("Failed to start base container")),
       Do(WaitForNetwork, Some("Failed to connect to container"))]
  }

  /** The post-launch script of `launch`, run as root, if there is one. */
  function PostPlan(name: string, rt: Runtime, running: bool, rootfs: string, post: Option<string>, scriptId: string): seq<Step>
  {
    if Truthy(post) then RunScriptPlan(name, rt, running, rootfs, post.value, scriptId, "root", None, None) else []
  }

  /** The last part of `launch`, in the running container. */
  function SetupPlan(name: string, rt: Runtime, running: bool, rootfs: string, post: Option<string>, scriptId: string): seq<Step>
  {
    InstallPlan(name, rt, running, ["ca-certificates"], Some(BareAssert))
    + SudoersPlan(rootfs)
    + PostPlan(name, rt, running, rootfs, post, scriptId)
  }

  /** The files `create_image` saves into `dest`: the configuration, the
      root filesystem archive, checked, and the snapshot id. */
  function SavePlan(dest: string, rootfsItem: string, utsname: string): seq<Step>
  {
    [Do(WriteFile(Join(dest, "config"), ImageConfigText), None),
     Do(HostCommand(["tar", "-Jcf", Join(dest, "rootfs.tar.xz"), "-C", rootfsItem, "."]), Some(CalledProcessError)),
     Do(WriteFile(Join(dest, "snapshot_id"), utsname), None)]
  }

  /** `create_image()`: the image is named after the snapshot, or a fresh id. */
  function CreateImagePlan(rt: Runtime, release: string, image: string, rootfsItem: string, utsname: string): seq<Step>
  {
    var dest := LocalImagePath(release, image);
    [Do(Stop, None), Do(WaitState("STOPPED", 30), Some(BareAssert))]
    + (if dest in rt.paths then [] else [Do(MakeDirs(dest), None)])
    + SavePlan(dest, rootfsItem, utsname)
  }

  /** `destroy(timeout)`. */
  function DestroyPlan(st: Lxc, timeout: int): seq<Step>
  {
    if !st.defined then []
    else (if st.running then [Do(Stop, None), Do(WaitState("STOPPED", timeout), None)] else []) + [Do(Destroy, None)]
  }

  /** What `launch` does once the container exists: boot it, then set it
      up, running. */
  function ReadyPlan(name: string, rt: Runtime, rootfs: string, pre: Option<string>, post: Option<string>,
                     scriptId: string): seq<Step>
  {
    BootPlan(rootfs, pre) + SetupPlan(name, rt, true, rootfs, post, scriptId)
  }

  /** `launch(pre, post, clean, flush_cache)`. */
  function LaunchPlan(name: string, release: string, snapshot: Option<string>, validate: bool, bucket: Option<string>,
                      rt: Runtime, rootfs: string, pre: Option<string>, post: Option<string>, clean: bool,
                      flushCache: bool, scriptId: string): seq<Step>
  {
    BasePlan(name, release, snapshot, validate, bucket, rt, clean, flushCache)
    + ReadyPlan(name, rt, rootfs, pre, post, scriptId)
  }

  /** Nothing has run yet. */
  lemma Begin(name: string, rt: Runtime, log: seq<Effect>, st: Lxc)
    ensures Ran(name, rt, log, st, [], log, st) && Failure(rt, []).None?
  {
    assert log + [] == log;
  }

  /** A run's calls do not depend on how their results are checked. */
  lemma RunChecked(name: string, rt: Runtime, running: bool, cmd: seq<string>, cwd: Option<string>,
                   env: Option<map<string, string>>, user: string, check: Option<string>)
    ensures Executed(rt, RunPlan(name, rt, running, cmd, cwd, env, user, check))
         == Executed(rt, RunPlan(name, rt, running, cmd, cwd, env, user, None))
    ensures Failure(rt, RunPlan(name, rt, running, cmd, cwd, env, user, check))
         == if !running then Some(NotRunning)
            else if check.Some? && Code(rt, ExecOf(name, rt.hostname, cmd, cwd, env, user)) != 0 then check
            else None
  {
    var p := RunPlan(name, rt, running, cmd, cwd, env, user, check);
    if running {
      assert p[1..] == [];
    }
  }

  /** The host paths a call creates when it succeeds. */
  function Writes(e: Effect): set<string>
  {
    match e
    case MakeDirs(p) => {p}
    case WriteFile(p, _) => {p}
    case Copy(_, d) => {d}
    case HostCommand(argv) => if |argv| >= 3 && argv[0] == "tar" && argv[1] == "-Jcf" then {argv[2]} else {}
    case _ => {}
  }

  /** An image saved by `create_image` is in the cache: once the files it
      wrote exist, `ensure_image_cached` for that image makes no call. */
  lemma CreatedImageIsCached(rt: Runtime, release: string, image: string, rootfsItem: string, utsname: string,
                             bucket: Option<string>, later: Runtime)
    requires Failure(rt, CreateImagePlan(rt, release, image, rootfsItem, utsname)).None?
    requires forall e | e in Executed(rt, CreateImagePlan(rt, release, image, rootfsItem, utsname)) :: Writes(e) <= later.paths
    ensures EnsurePlan(later, release, bucket, image) == []
  {
    var dest := LocalImagePath(release, image);
    var plan := CreateImagePlan(rt, release, image, rootfsItem, utsname);
    var save := SavePlan(dest, rootfsItem, utsname);
    var head := plan[..|plan| - 3];
    assert plan == head + save;
    CompleteRun(rt, plan);
    EffectsAppend(head, save);
    assert forall e | e in Effects(save) :: e in Executed(rt, plan);
    SavedImageIsCached(dest, rootfsItem, utsname, later);
  }

  /** Once the saved files exist, the image in `dest` is cached. */
  lemma SavedImageIsCached(dest: string, rootfsItem: string, utsname: string, later: Runtime)
    requires forall e | e in Effects(SavePlan(dest, rootfsItem, utsname)) :: Writes(e) <= later.paths
    ensures Cached(later, dest)
  {
    var save := SavePlan(dest, rootfsItem, utsname);
    EffectsOfCalls(save);
    var e := Effects(save);
    assert e[0] in e && e[1] in e && e[2] in e;
    TarWrites(dest, rootfsItem);
    assert Writes(e[1]) == {Join(dest, "rootfs.tar.xz")};
    assert Join(dest, RequiredFiles[0]) in later.paths;
    assert Join(dest, RequiredFiles[1]) in later.paths;
    assert Join(dest, RequiredFiles[2]) in later.paths;
  }

  /** The archive `tar -Jcf` writes. */
  lemma TarWrites(dest: string, rootfsItem: string)
    ensures Writes(HostCommand(["tar", "-Jcf", Join(dest, "rootfs.tar.xz"), "-C", rootfsItem, "."]))
         == {Join(dest, "rootfs.tar.xz")}
  {
    var argv := ["tar", "-Jcf", Join(dest, "rootfs.tar.xz"), "-C", rootfsItem, "."];
    assert |argv| >= 3 && argv[0] == "tar" && argv[1] == "-Jcf";
  }

  /** `ensure_image_cached` only makes directories and syncs. */
  lemma {:induction false} EnsureEffects(rt: Runtime, release: string, bucket: Option<string>, snapshot: string)
    ensures forall e | e in Effects(EnsurePlan(rt, release, bucket, snapshot)) :: e.MakeDirs? || e.Sync?
  {
    var plan := EnsurePlan(rt, release, bucket, snapshot);
    if !Cached(rt, LocalImagePath(release, snapshot)) && Truthy(bucket) {
      var local := LocalImagePath(release, snapshot);
      var mk: seq<Step> := if local in rt.paths then [] else [Do(MakeDirs(local), None)];
      var sync := [Do(Sync(RemoteImagePath(bucket.value, release, snapshot), local),
                      Some("Failed to download image " + RemoteImagePath(bucket.value, release, snapshot)))];
      EffectsAppend(mk, sync);
      assert sync[1..] == [];
      if mk != [] {
        assert mk[1..] == [];
      }
    }
  }

  /** Fetching a snapshot creates its container from the `download`
      template, and only when there is none; it clones nothing and uses no
      other template. */
  lemma FetchEffects(rt: Runtime, release: string, bucket: Option<string>, snap: string, validate: bool)
    ensures var effects := Effects(FetchPlan(rt, release, bucket, snap, validate));
      && (forall e | e in effects && e.CreateFrom? ::
            snap !in rt.containers && e == CreateFrom(snap, "download", DownloadArgs(release, snap, validate)))
      && (snap !in rt.containers ==> CreateFrom(snap, "download", DownloadArgs(release, snap, validate)) in effects)
      && (forall e | e in effects :: !e.Clone?)
  {
    if snap !in rt.containers {
      var ensure := EnsurePlan(rt, release, bucket, snap);
      var create := [Do(CreateFrom(snap, "download", DownloadArgs(release, snap, validate)), Some("Failed to load cached image: " + snap))];
      EffectsAppend(ensure, create);
      assert create[1..] == [];
      EnsureEffects(rt, release, bucket, snap);
    }
  }

  /** `launch` clones the snapshot exactly when it has one and is not asked
      for a clean container; it creates the snapshot's own container from
      the `download` template exactly when, besides, there is none yet; and
      it uses the `ubuntu` template exactly in the other case. */
  lemma BaseChoices(name: string, release: string, snapshot: Option<string>, validate: bool, bucket: Option<string>,
                    rt: Runtime, clean: bool, flushCache: bool, snap: string, args: seq<string>)
    requires snap != name
    ensures var effects := Effects(BasePlan(name, release, snapshot, validate, bucket, rt, clean, flushCache));
      && (Clone(snap, name) in effects <==> Truthy(snapshot) && !clean && snapshot.value == snap)
      && (CreateFrom(snap, "download", args) in effects <==>
           Truthy(snapshot) && !clean && snapshot.value == snap && snap !in rt.containers
           && args == DownloadArgs(release, snap, validate))
      && (CreateFrom(name, "ubuntu", args) in effects <==> !(Truthy(snapshot) && !clean) && args == UbuntuArgs(release, flushCache))
  {
    var plan := BasePlan(name, release, snapshot, validate, bucket, rt, clean, flushCache);
    if Truthy(snapshot) && !clean {
      CloneChoices(name, release, snapshot.value, validate, bucket, rt, snap, args);
    } else {
      assert plan[1..] == [];
      assert Effects(plan) == [CreateFrom(name, "ubuntu", UbuntuArgs(release, flushCache))];
    }
  }

  /** `BaseChoices` with a snapshot `s` to clone. */
  lemma CloneChoices(name: string, release: string, s: string, validate: bool, bucket: Option<string>,
                     rt: Runtime, snap: string, args: seq<string>)
    requires snap != name
    ensures var plan := FetchPlan(rt, release, bucket, s, validate)
          + [Do(Clone(s, name), Some("Failed to clone: " + s)), Do(LoadConfig, Some("Unable to reload container config"))];
      var effects := Effects(plan);
      && (Clone(snap, name) in effects <==> s == snap)
      && (CreateFrom(snap, "download", args) in effects <==>
           s == snap && snap !in rt.containers && args == DownloadArgs(release, snap, validate))
      && CreateFrom(name, "ubuntu", args) !in effects
  {
    var fetch := FetchPlan(rt, release, bucket, s, validate);
    var rest := [Do(Clone(s, name), Some("Failed to clone: " + s)), Do(LoadConfig, Some("Unable to reload container config"))];
    EffectsAppend(fetch, rest);
    EffectsOfCalls(rest);
    assert Effects(rest) == [Clone(s, name), LoadConfig];
    FetchEffects(rt, release, bucket, s, validate);
    ClonedAfter(Effects(fetch), name, s, rt.containers, DownloadArgs(release, s, validate), snap, args);
  }

  /** The choices of `CloneChoices`, on the calls `fetched` of the fetch. */
  lemma ClonedAfter(fetched: seq<Effect>, name: string, s: string, containers: set<string>,
                    download: seq<string>, snap: string, args: seq<string>)
    requires snap != name
    requires forall e | e in fetched && e.CreateFrom? :: s !in containers && e == CreateFrom(s, "download", download)
    requires s !in containers ==> CreateFrom(s, "download", download) in fetched
    requires forall e | e in fetched :: !e.Clone?
    ensures var effects := fetched + [Clone(s, name), LoadConfig];
      && (Clone(snap, name) in effects <==> s == snap)
      && (CreateFrom(snap, "download", args) in effects <==> s == snap && snap !in containers && args == download)
      && CreateFrom(name, "ubuntu", args) !in effects
  {
    var effects := fetched + [Clone(s, name), LoadConfig];
    if CreateFrom(snap, "download", args) in effects {
      assert CreateFrom(snap, "download", args) in fetched;
    }
    assert CreateFrom(name, "ubuntu", args) !in fetched;
  }

  /** `destroy` never fails an assertion; a container that is not defined
      is left alone, and a defined one whose destroy call succeeds is
      gone. */
  lemma DestroyEnds(name: string, rt: Runtime, st: Lxc, timeout: int)
    ensures Failure(rt, DestroyPlan(st, timeout)).None?
    ensures var after := Replay(name, rt, st, Executed(rt, DestroyPlan(st, timeout)));
      && (!st.defined ==> after == st)
      && (st.defined && Code(rt, Destroy) == 0 ==> after == Lxc(false, false))
  {
    var plan := DestroyPlan(st, timeout);
    if st.defined {
      var stop: seq<Step> := if st.running then [Do(Stop, None), Do(WaitState("STOPPED", timeout), None)] else [];
      var last := [Do(Destroy, None)];
      assert plan == stop + last;
      Sequenced(rt, stop, last);
      assert last[1..] == [];
      assert Executed(rt, last) == [Destroy] && Failure(rt, last) == None;
      if st.running {
        assert stop[1..][1..] == [];
        assert Failure(rt, stop[1..]) == Failure(rt, stop[1..][1..]);
      }
      assert Failure(rt, stop) == None;
      ReplayAppend(name, rt, st, Executed(rt, stop), [Destroy]);
      var st1 := Replay(name, rt, st, Executed(rt, stop));
      assert Replay(name, rt, st1, [Destroy]) == Replay(name, rt, After(name, st1, Destroy, Code(rt, Destroy) == 0), []);
    }
  }

  /** A boot that does not fail leaves the container running: the start
      succeeded and the wait for the network after it changes nothing. */
  lemma BootStarts(name: string, rt: Runtime, st: Lxc, rootfs: string, pre: Option<string>)
    ensures Failure(rt, BootPlan(rootfs, pre)).None? ==> Replay(name, rt, st, Executed(rt, BootPlan(rootfs, pre))).running
  {
    var plan := BootPlan(rootfs, pre);
    var start := Do(Start, Some("Failed to start base container"));
    var network := Do(WaitForNetwork, Some("Failed to connect to container"));
    var before := plan[..|plan| - 2];
    assert plan == before + [start] + [network];
    Sequenced(rt, before + [start], [network]);
    Sequenced(rt, before, [start]);
    if Failure(rt, plan).None? {
      var ran := Executed(rt, before);
      assert Executed(rt, [start]) == [Start] && Code(rt, Start) == 0;
      assert Executed(rt, [network]) == [WaitForNetwork];
      ReplayAppend(name, rt, st, ran + [Start], [WaitForNetwork]);
      ReplayAppend(name, rt, st, ran, [Start]);
      assert Replay(name, rt, Replay(name, rt, st, ran), [Start]).running;
    }
  }

  /** `assert install(pkgs) == 0`: the same calls as `install`, and the
      install's status checked as well. */
  lemma InstallChecked(name: string, rt: Runtime, running: bool, pkgs: seq<string>, check: string)
    ensures Executed(rt, InstallPlan(name, rt, running, pkgs, Some(check)))
         == Executed(rt, InstallPlan(name, rt, running, pkgs, None))
    ensures var failure := Failure(rt, InstallPlan(name, rt, running, pkgs, None));
      Failure(rt, InstallPlan(name, rt, running, pkgs, Some(check)))
      == if failure.Some? then failure
         else if Code(rt, ExecOf(name, rt.hostname, AptInstall + pkgs, None, None, "root")) != 0 then Some(check)
         else None
  {
    var first := RunPlan(name, rt, running, AptUpdate, None, None, "root", Some("Failed updating apt resources"));
    Sequenced(rt, first, RunPlan(name, rt, running, AptInstall + pkgs, None, None, "root", Some(check)));
    Sequenced(rt, first, RunPlan(name, rt, running, AptInstall + pkgs, None, None, "root", None));
    RunChecked(name, rt, running, AptInstall + pkgs, None, None, "root", Some(check));
    RunChecked(name, rt, running, AptInstall + pkgs, None, None, "root", None);
    RunChecked(name, rt, running, AptUpdate, None, None, "root", Some("Failed updating apt resources"));
  }

  /** A container: its settings, what lxc reports for it, and the calls it
      has made. `rootfsItem` is the `lxc.rootfs` item lxc gives it. */
  class Container {
    const name: string
    const release: string
    const snapshot: Option<string>
    const validate: bool
    const s3Bucket: Option<string>
    /** The host name inside the container. */
    const utsname: string
    const rootfsItem: string
    var defined: bool
    var running: bool
    var log: seq<Effect>

    /** `Container(name, release, snapshot, validate, s3_bucket)`; the host
        name is the snapshot id, or the fresh id `freshId`. */
    constructor (name: string, release: string, snapshot: Option<string>, validate: bool, s3Bucket: Option<string>,
                 freshId: string, rootfsItem: string, rt: Runtime)
      ensures this.name == name && this.release == release && this.snapshot == snapshot
      ensures this.validate == validate && this.s3Bucket == s3Bucket && this.rootfsItem == rootfsItem
      ensures utsname == if Truthy(snapshot) then snapshot.value else freshId
      ensures defined == (name in rt.containers) && running == (name in rt.running) && log == []
    {
      this.name := name;
      this.release := release;
      this.snapshot := snapshot;
      this.validate := validate;
      this.s3Bucket := s3Bucket;
      utsname := if Truthy(snapshot) then snapshot.value else freshId;
      this.rootfsItem := rootfsItem;
      defined := name in rt.containers;
      running := name in rt.running;
      log := [];
    }

    function State(): Lxc
      reads this
    {
      Lxc(defined, running)
    }

    /** The `rootfs` property. */
    function RootfsPath(): string
    {
      Rootfs(rootfsItem)
    }

    /** Takes one step. */
    method Perform(rt: Runtime, s: Step) returns (fault: Option<string>)
      modifies this
      ensures Ran(name, rt, old(log), old(State()), [s], log, State())
      ensures fault == Failure(rt, [s])
      ensures s.Abort? || Inert(s.effect) ==> State() == old(State())
      ensures s.Do? ==> State() == After(name, old(State()), s.effect, Code(rt, s.effect) == 0)
    {
      assert [s][1..] == [];
      if s.Abort? {
        assert log + [] == log;
        return Some(s.message);
      }
      var e := s.effect;
      var ok := Code(rt, e) == 0;
      log := log + [e];
      var st := After(name, Lxc(defined, running), e, ok);
      defined, running := st.defined, st.running;
      fault := if s.check.Some? && !ok then s.check else None;
    }

    /** Takes the steps of `plan` in turn, up to the first that fails. */
    method Execute(rt: Runtime, plan: seq<Step>) returns (fault: Option<string>)
      modifies this
      ensures Ran(name, rt, old(log), old(State()), plan, log, State())
      ensures fault == Failure(rt, plan)
    {
      ghost var log0, st0 := log, State();
      Begin(name, rt, log, State());
      fault := None;
      var i := 0;
      while i < |plan|
        invariant 0 <= i <= |plan|
        invariant Ran(name, rt, log0, st0, plan[..i], log, State()) && Failure(rt, plan[..i]).None?
        invariant fault.None?
      {
        ghost var log1, st1 := log, State();
        fault := Perform(rt, plan[i]);
        Chain(name, rt, log0, st0, plan[..i], log1, st1, [plan[i]], log, State());
        assert plan[..i] + [plan[i]] == plan[..i + 1];
        if fault.Some? {
          Abandon(name, rt, log0, st0, plan[..i + 1], log, State(), plan[i + 1..]);
          assert plan[..i + 1] + plan[i + 1..] == plan;
          return;
        }
        i := i + 1;
      }
      assert plan[..i] == plan;
    }

    /** `ensure_image_cached(snapshot)`: nothing when the three files are in
        the cache; otherwise the bucket is required and the image synced
        from it, the sync's status checked. */
    method EnsureImageCached(rt: Runtime, snapshot: string) returns (fault: Option<string>)
      modifies this
      ensures Ran(name, rt, old(log), old(State()), EnsurePlan(rt, release, s3Bucket, snapshot), log, State())
      ensures fault == Failure(rt, EnsurePlan(rt, release, s3Bucket, snapshot))
    {
      var path := ImagePath(release, snapshot);
      var localPath := SnapshotCache + "/" + path;
      assert RequiredFiles[0] == "rootfs.tar.xz" && RequiredFiles[1] == "config" && RequiredFiles[2] == "snapshot_id";
      Begin(name, rt, log, State());
      if Join(localPath, "rootfs.tar.xz") in rt.paths && Join(localPath, "config") in rt.paths
        && Join(localPath, "snapshot_id") in rt.paths
      {
        return None;
      }
      if !Truthy(s3Bucket) {
        return Some(MissingBucket);
      }
      var remotePath := "s3://" + s3Bucket.value + "/" + path;
      var sync := Do(Sync(remotePath, localPath), Some("Failed to download image " + remotePath));
      if localPath !in rt.paths {
        ghost var log0, st0 := log, State();
        var makeDirs := Do(MakeDirs(localPath), None);
        var _ := Perform(rt, makeDirs);
        ghost var log1, st1 := log, State();
        fault := Perform(rt, sync);
        Chain(name, rt, log0, st0, [makeDirs], log1, st1, [sync], log, State());
      } else {
        fault := Perform(rt, sync);
      }
    }

    /** `upload_image(snapshot)`: the bucket is required; the image is
        synced to it, the sync's status checked. */
    method UploadImage(rt: Runtime, snapshot: string) returns (fault: Option<string>)
      modifies this
      ensures Ran(name, rt, old(log), old(State()), UploadPlan(release, s3Bucket, snapshot), log, State())
      ensures fault == Failure(rt, UploadPlan(release, s3Bucket, snapshot))
    {
      Begin(name, rt, log, State());
      if !Truthy(s3Bucket) {
        return Some(MissingBucket);
      }
      var path := ImagePath(release, snapshot);
      var localPath := SnapshotCache + "/" + path;
      var remotePath := "s3://" + s3Bucket.value + "/" + path;
      fault := Perform(rt, Do(Sync(localPath, remotePath), Some("Failed to upload image " + remotePath)));
    }

    /** `run(cmd, cwd, env, user)`: refuses a container that is not running;
        otherwise runs the command once and gives its exit status. */
    method Run(rt: Runtime, cmd: seq<string>, cwd: Option<string>, env: Option<map<string, string>>, user: string)
      returns (r: Result<int, string>)
      modifies this
      ensures Ran(name, rt, old(log), old(State()), RunPlan(name, rt, old(running), cmd, cwd, env, user, None), log, State())
      ensures !old(running) ==> r == Err(NotRunning)
      ensures old(running) ==> r == Ok(Code(rt, ExecOf(name, rt.hostname, cmd, cwd, env, user)))
      ensures State() == old(State())
    {
      if !running {
        Begin(name, rt, log, State());
        return Err(NotRunning);
      }
      var homeDir := HomeDir(user);
      var dir := if cwd.None? then homeDir else "/";
      var newEnv := map["USER" := user, "HOME" := homeDir, "PWD" := dir,
                        "DEBIAN_FRONTEND" := "noninteractive", "LXC_NAME" := name,
                        "HOST_HOSTNAME" := rt.hostname, "PATH" := SearchPath];
      if env.Some? && env.value != map[] {
        newEnv := newEnv + env.value;
      }
      assert newEnv == CommandEnv(user, dir, name, rt.hostname, env);
      var command := cmd;
      if user != "root" {
        command := ["sudo", "-EHu", user] + command;
      }
      var exec := Exec(command, dir, newEnv);
      var _ := Perform(rt, Do(exec, None));
      r := Ok(Code(rt, exec));
    }

    /** `install(pkgs)`: `apt-get update`, whose status is checked, then
        `apt-get install`, whose status is given. */
    method Install(rt: Runtime, pkgs: seq<string>) returns (r: Result<int, string>)
      modifies this
      ensures Ran(name, rt, old(log), old(State()), InstallPlan(name, rt, old(running), pkgs, None), log, State())
      ensures var failure := Failure(rt, InstallPlan(name, rt, old(running), pkgs, None));
        r == if failure.Some? then Err(failure.value)
             else Ok(Code(rt, ExecOf(name, rt.hostname, AptInstall + pkgs, None, None, "root")))
      ensures State() == old(State())
    {
      ghost var log0, st0 := log, State();
      ghost var first := RunPlan(name, rt, running, AptUpdate, None, None, "root", Some("Failed updating apt resources"));
      ghost var second := RunPlan(name, rt, running, AptInstall + pkgs, None, None, "root", None);
      RunChecked(name, rt, running, AptUpdate, None, None, "root", Some("Failed updating apt resources"));
      var updated := Run(rt, AptUpdate, None, None, "root");
      if updated.Err? || updated.value != 0 {
        Abandon(name, rt, log0, st0, first, log, State(), second);
        return Err(if updated.Err? then updated.error else "Failed updating apt resources");
      }
      ghost var log1, st1 := log, State();
      r := Run(rt, AptInstall + pkgs, None, None, "root");
      Chain(name, rt, log0, st0, first, log1, st1, second, log, State());
      RunChecked(name, rt, running, AptInstall + pkgs, None, None, "root", None);
    }

    /** `assert install(pkgs) == 0`. */
    method InstallAsserting(rt: Runtime, pkgs: seq<string>) returns (fault: Option<string>)
      modifies this
      ensures Ran(name, rt, old(log), old(State()), InstallPlan(name, rt, old(running), pkgs, Some(BareAssert)), log, State())
      ensures fault == Failure(rt, InstallPlan(name, rt, old(running), pkgs, Some(BareAssert)))
      ensures State() == old(State())
    {
      InstallChecked(name, rt, running, pkgs, BareAssert);
      var installed := Install(rt, pkgs);
      fault := if installed.Err? then Some(installed.error) else if installed.value != 0 then Some(BareAssert) else None;
    }

    /** `setup_sudoers(user)`: writes the sudoers file, the same for every
        user, and makes it read-only; always true. */
    method SetupSudoers(rt: Runtime, user: string) returns (ok: bool)
      modifies this
      ensures Ran(name, rt, old(log), old(State()), SudoersPlan(RootfsPath()), log, State()) && ok
      ensures State() == old(State())
    {
      ghost var log0, st0 := log, State();
      var sudoersPath := Join(Join(RootfsPath(), "etc"), "sudoers");
      var _ := Perform(rt, Do(WriteFile(sudoersPath, SudoersText), None));
      ghost var log1, st1 := log, State();
      var _ := Perform(rt, Do(HostCommand(["chmod", "0440", sudoersPath]), None));
      SudoersRan(name, rt, RootfsPath(), log0, st0, log1, st1, log, State());
      return true;
    }

    /** `assert self.run(cmd, ...) == 0, check`: a run whose status is
        checked; a container that is not running fails `run`'s own
        assertion. */
    method RunAsserting(rt: Runtime, cmd: seq<string>, cwd: Option<string>, env: Option<map<string, string>>,
                        user: string, check: Option<string>) returns (fault: Option<string>)
      modifies this
      ensures Ran(name, rt, old(log), old(State()), RunPlan(name, rt, old(running), cmd, cwd, env, user, check), log, State())
      ensures fault == Failure(rt, RunPlan(name, rt, old(running), cmd, cwd, env, user, check))
      ensures State() == old(State())
    {
      RunChecked(name, rt, running, cmd, cwd, env, user, check);
      var r := Run(rt, cmd, cwd, env, user);
      fault := if r.Err? then Some(r.error) else if check.Some? && r.value != 0 then check else None;
    }

    /** `run_script(script_path, user, cwd, env)`: the script must exist on
        the host; it is copied into the root filesystem under a fresh name,
        made executable and run, both statuses checked. */
    method RunScript(rt: Runtime, scriptPath: string, scriptId: string, user: string, cwd: Option<string>,
                     env: Option<map<string, string>>) returns (fault: Option<string>)
      modifies this
      ensures Ran(name, rt, old(log), old(State()),
                  RunScriptPlan(name, rt, old(running), RootfsPath(), scriptPath, scriptId, user, cwd, env), log, State())
      ensures fault == Failure(rt, RunScriptPlan(name, rt, old(running), RootfsPath(), scriptPath, scriptId, user, cwd, env))
      ensures State() == old(State())
    {
      if scriptPath !in rt.paths {
        fault := Perform(rt, Abort("Cannot find local script " + scriptPath));
        return;
      }
      ghost var log0, st0 := log, State();
      var newName := Join("tmp", "script-" + scriptId);
      var copy := Do(Copy(scriptPath, Join(RootfsPath(), newName)), None);
      var _ := Perform(rt, copy);
      ghost var log1 := log;
      var inside := "/" + newName;
      ghost var chmodPlan := RunPlan(name, rt, st0.running, ["chmod", "0755", inside], None, None, "root", Some(BareAssert));
      ghost var scriptPlan := RunPlan(name, rt, st0.running, [inside], cwd, env, user, Some(BareAssert));
      fault := RunAsserting(rt, ["chmod", "0755", inside], None, None, "root", Some(BareAssert));
      Chain(name, rt, log0, st0, [copy], log1, st0, chmodPlan, log, st0);
      if fault.Some? {
        Abandon(name, rt, log0, st0, [copy] + chmodPlan, log, st0, scriptPlan);
        return;
      }
      ghost var log2 := log;
      fault := RunAsserting(rt, [inside], cwd, env, user, Some(BareAssert));
      Chain(name, rt, log0, st0, [copy] + chmodPlan, log2, st0, scriptPlan, log, st0);
    }

    /** The part of `launch` that makes the container: a clone of the
        snapshot, which is fetched into a container of its own first if
        there is none, or a container of the `ubuntu` template. */
    method CreateBase(rt: Runtime, clean: bool, flushCache: bool) returns (fault: Option<string>)
      modifies this
      ensures Ran(name, rt, old(log), old(State()), BasePlan(name, release, snapshot, validate, s3Bucket, rt, clean, flushCache),
                  log, State())
      ensures fault == Failure(rt, BasePlan(name, release, snapshot, validate, s3Bucket, rt, clean, flushCache))
    {
      if !Truthy(snapshot) || clean {
        fault := Perform(rt, Do(CreateFrom(name, "ubuntu", UbuntuArgs(release, flushCache)), Some(CreateFailed)));
        return;
      }
      var snap := snapshot.value;
      ghost var log0, st0 := log, State();
      ghost var fetch := FetchPlan(rt, release, s3Bucket, snap, validate);
      if snap !in rt.containers {
        ghost var ensure := EnsurePlan(rt, release, s3Bucket, snap);
        fault := EnsureImageCached(rt, snap);
        ghost var log1, st1 := log, State();
        var create := Do(CreateFrom(snap, "download", DownloadArgs(release, snap, validate)),
                         Some("Failed to load cached image: " + snap));
        if fault.None? {
          fault := Perform(rt, create);
        }
        Then(name, rt, log0, st0, ensure, log1, st1, [create], log, State());
      } else {
        Begin(name, rt, log, State());
        fault := None;
      }
      ghost var log2, st2 := log, State();
      var rest := [Do(Clone(snap, name), Some("Failed to clone: " + snap)), Do(LoadConfig, Some("Unable to reload container config"))];
      if fault.None? {
        fault := Execute(rt, rest);
      }
      Then(name, rt, log0, st0, fetch, log2, st2, rest, log, State());
    }

    /** The part of `launch` that starts the container: the pre-launch
        hook, the configuration, the start and the wait for the network. A
        boot that does not fail leaves the container running. */
    method Boot(rt: Runtime, pre: Option<string>) returns (fault: Option<string>)
      modifies this
      ensures Ran(name, rt, old(log), old(State()), BootPlan(RootfsPath(), pre), log, State())
      ensures fault == Failure(rt, BootPlan(RootfsPath(), pre))
      ensures fault.None? ==> running
    {
      ghost var st0 := State();
      fault := Execute(rt, BootPlan(RootfsPath(), pre));
      BootStarts(name, rt, st0, RootfsPath(), pre);
    }

    /** `run_script(post)` in `launch`, if there is a script. */
    method PostLaunch(rt: Runtime, post: Option<string>, scriptId: string) returns (fault: Option<string>)
      modifies this
      ensures Ran(name, rt, old(log), old(State()), PostPlan(name, rt, old(running), RootfsPath(), post, scriptId), log, State())
      ensures fault == Failure(rt, PostPlan(name, rt, old(running), RootfsPath(), post, scriptId))
      ensures State() == old(State())
    {
      if Truthy(post) {
        fault := RunScript(rt, post.value, scriptId, "root", None, None);
      } else {
        Begin(name, rt, log, State());
        fault := None;
      }
    }

    /** The last part of `launch`: `ca-certificates` installed, its status
        checked; the sudoers file; the post-launch script, if any. */
    method Setup(rt: Runtime, post: Option<string>, scriptId: string) returns (fault: Option<string>)
      modifies this
      ensures Ran(name, rt, old(log), old(State()), SetupPlan(name, rt, old(running), RootfsPath(), post, scriptId), log, State())
      ensures fault == Failure(rt, SetupPlan(name, rt, old(running), RootfsPath(), post, scriptId))
      ensures State() == old(State())
    {
      ghost var log0, st0 := log, State();
      ghost var install := InstallPlan(name, rt, running, ["ca-certificates"], Some(BareAssert));
      fault := InstallAsserting(rt, ["ca-certificates"]);
      ghost var log1 := log;
      if fault.None? {
        var _ := SetupSudoers(rt, "ubuntu");
      }
      Then(name, rt, log0, st0, install, log1, st0, SudoersPlan(RootfsPath()), log, st0);
      SudoersNeverFails(rt, RootfsPath());
      ghost var log2 := log;
      if fault.None? {
        fault := PostLaunch(rt, post, scriptId);
      }
      Then(name, rt, log0, st0, install + SudoersPlan(RootfsPath()), log2, st0,
           PostPlan(name, rt, st0.running, RootfsPath(), post, scriptId), log, st0);
    }

    /** The boot, then the setup in the running container. */
    method Ready(rt: Runtime, pre: Option<string>, post: Option<string>, scriptId: string) returns (fault: Option<string>)
      modifies this
      ensures Ran(name, rt, old(log), old(State()), ReadyPlan(name, rt, RootfsPath(), pre, post, scriptId), log, State())
      ensures fault == Failure(rt, ReadyPlan(name, rt, RootfsPath(), pre, post, scriptId))
      ensures fault.None? ==> running
    {
      ghost var log0, st0 := log, State();
      fault := Boot(rt, pre);
      ghost var log1, st1 := log, State();
      if fault.None? {
        fault := Setup(rt, post, scriptId);
      }
      Then(name, rt, log0, st0, BootPlan(RootfsPath(), pre), log1, st1, SetupPlan(name, rt, true, RootfsPath(), post, scriptId),
           log, State());
    }

    /** `launch(pre, post, clean, flush_cache)`: the base, then the boot,
        then the setup in the running container. */
    method Launch(rt: Runtime, pre: Option<string>, post: Option<string>, clean: bool, flushCache: bool, scriptId: string)
      returns (fault: Option<string>)
      modifies this
      ensures Ran(name, rt, old(log), old(State()),
                  LaunchPlan(name, release, snapshot, validate, s3Bucket, rt, RootfsPath(), pre, post, clean, flushCache, scriptId),
                  log, State())
      ensures fault == Failure(rt, LaunchPlan(name, release, snapshot, validate, s3Bucket, rt, RootfsPath(), pre, post, clean,
                                              flushCache, scriptId))
      ensures fault.None? ==> running
    {
      ghost var log0, st0 := log, State();
      fault := CreateBase(rt, clean, flushCache);
      ghost var log1, st1 := log, State();
      if fault.None? {
        fault := Ready(rt, pre, post, scriptId);
      }
      Then(name, rt, log0, st0, BasePlan(name, release, snapshot, validate, s3Bucket, rt, clean, flushCache), log1, st1,
           ReadyPlan(name, rt, RootfsPath(), pre, post, scriptId), log, State());
    }

    /** `create_image()`: stops the container and saves its image into the
        cache under the snapshot id, or the fresh id `freshId`, which it
        gives back. */
    method CreateImage(rt: Runtime, freshId: string) returns (r: Result<string, string>)
      modifies this
      ensures var image := if Truthy(snapshot) then snapshot.value else freshId;
        var plan := CreateImagePlan(rt, release, image, rootfsItem, utsname);
        && Ran(name, rt, old(log), old(State()), plan, log, State())
        && r == if Failure(rt, plan).Some? then Err(Failure(rt, plan).value) else Ok(image)
    {
      var image := if Truthy(snapshot) then snapshot.value else freshId;
      var fault := Execute(rt, CreateImagePlan(rt, release, image, rootfsItem, utsname));
      r := if fault.Some? then Err(fault.value) else Ok(image);
    }

    /** `destroy(timeout)`: nothing for a container that is not defined;
        otherwise it is stopped first if running, then destroyed. */
    method Destroy(rt: Runtime, timeout: int)
      modifies this
      ensures Ran(name, rt, old(log), old(State()), DestroyPlan(old(State()), timeout), log, State())
    {
      var _ := Execute(rt, DestroyPlan(State(), timeout));
    }
  }
}
