/** The command that runs a job in a container (changes_lxc_wrapper/cli/wrapper.py):
    how the parameters of the job are resolved from the job step or the
    command line, and the order of the calls `run` makes. The API client,
    the reporter thread and the container are seen through the events they
    are sent; the container itself is the model of container.py. */
module Wrapper {
  import opened Wrappers
  import opened Containers
  import LogReporting
  import Text
  import Uuids

  const DefaultRelease := "precise"
  const FinishedStatus := "finished"
  const NoApi := "jobstep_id passed without api_url"
  const AlreadyFinished := "JobStep already marked as finished, aborting."
  const SnapshotFromSnapshot := "You cannot create a snapshot from an existing snapshot"
  /** What calling `Container(...)` without its `name` raises, in the
      wording of Python 3.4 to 3.9; from Python 3.10 on the message starts
      with the qualified name `Container.__init__()`. */
  const MissingName := "__init__() missing 1 required positional argument: 'name'"
  /** What `None.update_snapshot_image(...)` raises. */
  const NoApiAttribute := "'NoneType' object has no attribute 'update_snapshot_image'"

  /** The parsed command line. `snapshot` is the `--snapshot` UUID in its
      text form; `cmd` is the remainder, as parsed. */
  datatype Args = Args(
    snapshot: Option<string>,
    release: Option<string>,
    keep: bool,
    validate: bool,
    saveSnapshot: bool,
    clean: bool,
    flushCache: bool,
    apiUrl: Option<string>,
    jobstepId: Option<string>,
    preLaunch: Option<string>,
    postLaunch: Option<string>,
    user: string,
    script: Option<string>,
    s3Bucket: Option<string>,
    cmd: seq<string>)

  /** The part of the `get_jobstep` answer `run` reads: the status id, the
      release of its data, and the ids of the expected snapshot and of the
      snapshot, each when the answer holds one. */
  datatype JobStep = JobStep(status: string, release: Option<string>, expectedSnapshot: Option<string>,
                             snapshot: Option<string>)

  /** What the job is run with. */
  datatype Params = Params(snapshot: Option<string>, saveSnapshot: bool, clean: bool, release: string)

  /** `args.cmd.remove('--')`: the first `--` goes, if there is one. */
  function DropSeparator(cmd: seq<string>): seq<string>
  {
    if cmd == [] then []
    else if cmd[0] == "--" then cmd[1..]
    else [cmd[0]] + DropSeparator(cmd[1..])
  }

  /** The position of the first `--`. */
  function SeparatorAt(cmd: seq<string>): (i: nat)
    requires "--" in cmd
    ensures i < |cmd| && cmd[i] == "--" && "--" !in cmd[..i]
  {
    if cmd[0] == "--" then 0 else SeparatorAt(cmd[1..]) + 1
  }

  /** Only the first `--` is removed; the rest of the command, any later
      `--` included, is kept in order. */
  lemma {:induction false} DropSeparatorMeaning(cmd: seq<string>)
    ensures "--" !in cmd ==> DropSeparator(cmd) == cmd
    ensures "--" in cmd ==> DropSeparator(cmd) == cmd[..SeparatorAt(cmd)] + cmd[SeparatorAt(cmd) + 1..]
  {
    if cmd != [] && cmd[0] != "--" {
      DropSeparatorMeaning(cmd[1..]);
      if "--" in cmd {
        var i := SeparatorAt(cmd[1..]);
        assert cmd[..i + 1] == [cmd[0]] + cmd[1..][..i];
        assert cmd[i + 2..] == cmd[1..][i + 1..];
      } else {
        assert cmd == [cmd[0]] + cmd[1..];
      }
    }
  }

  /** A release, or the default when it is missing or empty. */
  function ReleaseOr(release: Option<string>): string
  {
    if Truthy(release) then release.value else DefaultRelease
  }

  /** The parameters of a job step: a step already finished is refused; an
      expected snapshot is built from scratch and saved under its id;
      otherwise the step's snapshot, if any, is used and nothing is saved. */
  function FromJobStep(resp: JobStep): Result<Params, string>
  {
    if resp.status == FinishedStatus then Err(AlreadyFinished)
    else
      var release := ReleaseOr(resp.release);
      if resp.expectedSnapshot.Some? then
        match Uuids.Parse(resp.expectedSnapshot.value)
        case Err(e) => Err(e)
        case Ok(id) => Ok(Params(Some(id), true, true, release))
      else if resp.snapshot.Some? then
        match Uuids.Parse(resp.snapshot.value)
        case Err(e) => Err(e)
        case Ok(id) => Ok(Params(Some(id), false, false, release))
      else Ok(Params(None, false, false, release))
  }

  /** The parameters given on the command line. */
  function FromArgs(args: Args): Params
  {
    Params(args.snapshot, args.saveSnapshot, args.clean, ReleaseOr(args.release))
  }

  /** A snapshot is only saved from a clean container, never from another
      snapshot. */
  predicate SnapshotRule(p: Params)
  {
    p.clean || !(p.saveSnapshot && Truthy(p.snapshot))
  }

  /** A job step that is not finished gives: with an expected snapshot, that
      snapshot, saved, from a clean container; otherwise the step's own
      snapshot or none, not saved and not clean; the release of the step, or
      `precise`. The snapshot is the written form of the id the step gives,
      and an id that is not one is refused. Such parameters always keep the
      snapshot rule. */
  lemma JobStepParams(resp: JobStep)
    ensures FromJobStep(resp).Err? <==>
      resp.status == FinishedStatus
      || (resp.expectedSnapshot.Some? && !Uuids.IsHex(Uuids.Digits(resp.expectedSnapshot.value)))
      || (resp.expectedSnapshot.None? && resp.snapshot.Some? && !Uuids.IsHex(Uuids.Digits(resp.snapshot.value)))
    ensures resp.status == FinishedStatus ==> FromJobStep(resp) == Err(AlreadyFinished)
    ensures FromJobStep(resp).Ok? ==>
      var p := FromJobStep(resp).value;
      && p.release == (if resp.release.Some? && resp.release.value != "" then resp.release.value else DefaultRelease)
      && (resp.expectedSnapshot.Some? ==>
            p == Params(Some(Uuids.Parse(resp.expectedSnapshot.value).value), true, true, p.release))
      && (resp.expectedSnapshot.None? && resp.snapshot.Some? ==>
            p == Params(Some(Uuids.Parse(resp.snapshot.value).value), false, false, p.release))
      && (resp.expectedSnapshot.None? && resp.snapshot.None? ==> p == Params(None, false, false, p.release))
      && (p.snapshot.Some? ==> Uuids.Canonical(p.snapshot.value))
      && SnapshotRule(p)
  {
    if resp.expectedSnapshot.Some? {
      Uuids.ParseMeaning(resp.expectedSnapshot.value);
    } else if resp.snapshot.Some? {
      Uuids.ParseMeaning(resp.snapshot.value);
    }
  }

  /** The recorded remote run: a queued step with no release and the
      snapshot `a1028849e8cf4ff0a7d7fdfe3c4fe925` runs from the snapshot
      `a1028849-e8cf-4ff0-a7d7-fdfe3c4fe925` on `precise`, saving nothing. */
  lemma RemoteRunParams()
    ensures FromJobStep(JobStep("queued", None, None, Some("a1028849e8cf4ff0a7d7fdfe3c4fe925")))
         == Ok(Params(Some("a1028849-e8cf-4ff0-a7d7-fdfe3c4fe925"), false, false, "precise"))
  {
    ExampleIdParsed();
  }

  /** The id of the recorded remote run, read as a UUID. */
  lemma ExampleIdParsed()
    ensures Uuids.Parse("a1028849e8cf4ff0a7d7fdfe3c4fe925") == Ok("a1028849-e8cf-4ff0-a7d7-fdfe3c4fe925")
  {
    var h := "a1028849e8cf4ff0a7d7fdfe3c4fe925";
    ExampleIdDigits();
    Uuids.SameUuid(h);
    Uuids.LowerAllLower(h);
    ExampleIdWritten();
  }

  /** The id of the recorded remote run is 32 lower-case digits. */
  lemma ExampleIdDigits()
    ensures var h := "a1028849e8cf4ff0a7d7fdfe3c4fe925";
      Uuids.IsHex(h) && forall i :: 0 <= i < |h| ==> Uuids.IsLowerHexDigit(h[i])
  {
  }

  /** The written form of the id of the recorded remote run. */
  lemma ExampleIdWritten()
    ensures Uuids.Format("a1028849e8cf4ff0a7d7fdfe3c4fe925") == "a1028849-e8cf-4ff0-a7d7-fdfe3c4fe925"
  {
    ExampleIdGroups();
    Uuids.FormatGroups("a1028849", "e8cf", "4ff0", "a7d7", "fdfe3c4fe925");
    ExampleIdJoined();
  }

  /** The five groups of digits of that id. */
  lemma ExampleIdGroups()
    ensures "a1028849e8cf4ff0a7d7fdfe3c4fe925" == "a1028849" + "e8cf" + "4ff0" + "a7d7" + "fdfe3c4fe925"
  {
  }

  /** The groups joined by dashes. */
  lemma ExampleIdJoined()
    ensures "a1028849" + "-" + "e8cf" + "-" + "4ff0" + "-" + "a7d7" + "-" + "fdfe3c4fe925"
         == "a1028849-e8cf-4ff0-a7d7-fdfe3c4fe925"
  {
    assert "a1028849" + "-" == "a1028849-";
    assert "a1028849-" + "e8cf" == "a1028849-e8cf";
    assert "a1028849-e8cf" + "-" == "a1028849-e8cf-";
    assert "a1028849-e8cf-" + "4ff0" == "a1028849-e8cf-4ff0";
    assert "a1028849-e8cf-4ff0" + "-" == "a1028849-e8cf-4ff0-";
    assert "a1028849-e8cf-4ff0-" + "a7d7" == "a1028849-e8cf-4ff0-a7d7";
    assert "a1028849-e8cf-4ff0-a7d7" + "-" == "a1028849-e8cf-4ff0-a7d7-";
  }

  /** On the command line the rule can be broken, and is then refused. */
  lemma LocalRuleCanFail(args: Args)
    requires args.snapshot == Some("1") && args.saveSnapshot && !args.clean
    ensures !SnapshotRule(FromArgs(args))
  {
  }

  /** What `run` decides before it builds the container. */
  datatype Prepared = Refused(message: string) | Resolved(params: Params)

  /** Whether `run` starts the reporter thread: a job step is given, and
      the API it needs. */
  predicate Reporting(args: Args)
  {
    Truthy(args.jobstepId) && Truthy(args.apiUrl)
  }

  /** Lines 93-143 of `run`: a job step needs the API; the job step's
      parameters, or the command line's; the snapshot rule. `jobstep` is
      what `get_jobstep` gives, or what it raises. */
  function Prepare(args: Args, jobstep: Result<JobStep, string>): (r: Prepared)
    ensures r.Resolved? ==> SnapshotRule(r.params)
    ensures Truthy(args.jobstepId) && !Truthy(args.apiUrl) ==> r == Refused(NoApi)
    ensures Reporting(args) && jobstep.Ok? && jobstep.value.status == FinishedStatus ==> r == Refused(AlreadyFinished)
    ensures Reporting(args) && jobstep.Ok? && FromJobStep(jobstep.value).Ok? ==> r == Resolved(FromJobStep(jobstep.value).value)
    ensures !Truthy(args.jobstepId) ==> r == if SnapshotRule(FromArgs(args)) then Resolved(FromArgs(args)) else Refused(SnapshotFromSnapshot)
  {
    if !Truthy(args.apiUrl) && Truthy(args.jobstepId) then Refused(NoApi)
    else if Truthy(args.jobstepId) then
      if jobstep.Err? then Refused(jobstep.error)
      else
        match FromJobStep(jobstep.value)
        case Err(e) => Refused(e)
        case Ok(p) => if SnapshotRule(p) then Resolved(p) else Refused(SnapshotFromSnapshot)
    else
      var p := FromArgs(args);
      if SnapshotRule(p) then Resolved(p) else Refused(SnapshotFromSnapshot)
  }

  /** What `run` does, as seen from the API, the reporter and the container:
      the container operations are named, their calls are in the
      container's own log. */
  datatype Event =
    | ReporterStarted
    | JobStepFetched
    | JobStepUpdated(status: string, result: Option<string>)
    | ImageUpdated(image: Option<string>, status: string)
    | Launch
    | RunCommand(cmd: seq<string>)
    | RunScript(path: string)
    | RunClient
    | CreateImage
    | UploadImage(snapshot: string)
    | Destroyed
    | Kept
    | ReporterClosed

  /** How `run` ends. */
  datatype Outcome = Completed | Raised(message: string)

  /** The events before the container is built: the reporter starts and the
      job step is fetched. */
  function Opening(args: Args): seq<Event>
  {
    if Reporting(args) then [ReporterStarted, JobStepFetched] else []
  }

  /** The name of the saved image: the snapshot id, or a fresh one. */
  function ImageName(p: Params, freshImage: string): string
  {
    if Truthy(p.snapshot) then p.snapshot.value else freshImage
  }

  /** The `changes-client` command. */
  function ClientCommand(apiUrl: string, jobstepId: string): seq<string>
  {
    ["changes-client", "--server", apiUrl, "--jobstep_id", jobstepId]
  }

  /** The operations between the launch and the image. */
  function Commands(args: Args, cmd: seq<string>): seq<Event>
  {
    (if cmd != [] then [RunCommand(cmd)] else [])
    + (if Truthy(args.script) then [RunScript(args.script.value)] else [])
    + (if Truthy(args.apiUrl) && Truthy(args.jobstepId) then [RunClient] else [])
  }

  /** The operations that save the image. */
  function Saving(p: Params, image: string): seq<Event>
  {
    if p.saveSnapshot then [CreateImage, UploadImage(image), ImageUpdated(Some(image), "active")] else []
  }

  /** The operations of the `try` block, in order, when none fails. */
  function Operations(args: Args, cmd: seq<string>, p: Params, image: string): seq<Event>
  {
    [Launch] + Commands(args, cmd) + Saving(p, image)
  }

  /** A job step that expects a snapshot has its image saved, uploaded and
      marked active under the expected id, whatever fresh id is drawn. */
  lemma ExpectedSnapshotSaved(resp: JobStep, freshImage: string)
    requires FromJobStep(resp).Ok? && resp.expectedSnapshot.Some?
    ensures var p := FromJobStep(resp).value; var id := Uuids.Parse(resp.expectedSnapshot.value).value;
      && p.saveSnapshot && p.clean
      && ImageName(p, freshImage) == id
      && Saving(p, ImageName(p, freshImage)) == [CreateImage, UploadImage(id), ImageUpdated(Some(id), "active")]
  {
    var id := Uuids.Parse(resp.expectedSnapshot.value).value;
    Uuids.ParseMeaning(resp.expectedSnapshot.value);
    assert |id| == 36;
    assert FromJobStep(resp).value == Params(Some(id), true, true, ReleaseOr(resp.release));
  }

  /** The `except` and `finally` blocks: a failure is reported to the job
      step, and to the image being saved; the job step is marked finished;
      the container is destroyed unless kept; the reporter is closed. */
  function Closing(args: Args, p: Params, failed: bool): seq<Event>
  {
    Failing(args, p, failed) + Finally(args)
  }

  /** The command, the script and `changes-client` each run exactly when
      asked for, and nothing else runs between the launch and the image. */
  lemma CommandsMeaning(args: Args, cmd: seq<string>)
    ensures var cs := Commands(args, cmd);
      && (RunCommand(cmd) in cs <==> cmd != [])
      && (Truthy(args.script) ==> RunScript(args.script.value) in cs)
      && (RunClient in cs <==> Truthy(args.apiUrl) && Truthy(args.jobstepId))
      && (forall e :: e in cs ==> e.RunCommand? || (e.RunScript? && Truthy(args.script)) || e == RunClient)
  {
  }

  /** The image is created, uploaded and marked active under its name
      exactly when a snapshot is saved. */
  lemma SavingMeaning(p: Params, image: string)
    ensures var save := Saving(p, image);
      && (CreateImage in save <==> p.saveSnapshot)
      && (forall e :: e in save ==> p.saveSnapshot && (e == CreateImage || e == UploadImage(image) || e == ImageUpdated(Some(image), "active")))
  {
  }

  /** The launch comes first and only once; the command and
      `changes-client` each run exactly when asked for. */
  lemma {:induction false} LaunchFirst(args: Args, cmd: seq<string>, p: Params, image: string)
    ensures var ops := Operations(args, cmd, p, image);
      && ops[0] == Launch && Launch !in ops[1..]
      && (RunCommand(cmd) in ops <==> cmd != [])
      && (RunClient in ops <==> Truthy(args.apiUrl) && Truthy(args.jobstepId))
  {
    var cs, save := Commands(args, cmd), Saving(p, image);
    var ops := Operations(args, cmd, p, image);
    assert ops == [Launch] + (cs + save);
    assert ops[1..] == cs + save;
    CommandsMeaning(args, cmd);
    SavingMeaning(p, image);
    assert Launch !in cs && Launch !in save;
    assert RunCommand(cmd) !in save && RunClient !in save;
    assert RunCommand(cmd) in ops <==> RunCommand(cmd) in cs;
    assert RunClient in ops <==> RunClient in cs;
  }

  /** The image is saved exactly when a snapshot is, and then the last
      three operations create it, upload it and mark it active under its
      name. */
  lemma {:induction false} SavedLast(args: Args, cmd: seq<string>, p: Params, image: string)
    ensures var ops := Operations(args, cmd, p, image);
      && (CreateImage in ops <==> p.saveSnapshot)
      && (p.saveSnapshot ==> ops[|ops| - 3..] == [CreateImage, UploadImage(image), ImageUpdated(Some(image), "active")])
      && (forall e :: e in ops && (e.UploadImage? || e.ImageUpdated?) ==> p.saveSnapshot)
  {
    var cs, save := Commands(args, cmd), Saving(p, image);
    CommandsMeaning(args, cmd);
    SavingMeaning(p, image);
    var ops := Operations(args, cmd, p, image);
    assert ops == ([Launch] + cs) + save;
    if p.saveSnapshot {
      assert ops[|ops| - 3..] == save;
    }
  }

  /** What the `except` block reports. */
  function Failing(args: Args, p: Params, failed: bool): seq<Event>
  {
    if failed && Truthy(args.jobstepId)
    then [JobStepUpdated(FinishedStatus, Some("failed"))] + (if p.saveSnapshot then [ImageUpdated(p.snapshot, "failed")] else [])
    else []
  }

  /** What the `finally` block does. */
  function Finally(args: Args): seq<Event>
  {
    (if Truthy(args.jobstepId) then [JobStepUpdated(FinishedStatus, None)] else [])
    + (if args.keep then [Kept] else [Destroyed])
    + (if Reporting(args) then [ReporterClosed] else [])
  }

  /** On a job step, a failure is reported exactly when the run failed, and
      to the image exactly when one was being saved. */
  lemma FailingMeaning(args: Args, p: Params, failed: bool)
    ensures var f := Failing(args, p, failed);
      && (JobStepUpdated(FinishedStatus, Some("failed")) in f <==> failed && Truthy(args.jobstepId))
      && (ImageUpdated(p.snapshot, "failed") in f <==> failed && Truthy(args.jobstepId) && p.saveSnapshot)
      && (forall e :: e in f ==> e.JobStepUpdated? || e.ImageUpdated?)
  {
  }

  /** The step is marked finished; the container is destroyed exactly when
      it is not kept; the reporter, when started, is closed, last. */
  lemma FinallyMeaning(args: Args)
    ensures var f := Finally(args);
      && (JobStepUpdated(FinishedStatus, None) in f <==> Truthy(args.jobstepId))
      && (Destroyed in f <==> !args.keep)
      && (Kept in f <==> args.keep)
      && (ReporterClosed in f <==> Reporting(args))
      && |f| > 0
      && (Reporting(args) ==> f[|f| - 1] == ReporterClosed)
  {
  }

  /** Where an event stands in the `except` and `finally` blocks: the failed
      step, the failed image, the finished step, destroy or keep, the
      reporter closed; 5 for the events neither block makes. */
  function ClosingStage(e: Event): nat
  {
    match e
    case JobStepUpdated(_, result) => if result.Some? then 0 else 2
    case ImageUpdated(_, _) => 1
    case Destroyed => 3
    case Kept => 3
    case ReporterClosed => 4
    case _ => 5
  }

  /** The `except` and `finally` blocks together: on a job step, a failure
      is reported exactly when the run failed, and to the image exactly when
      one was being saved; the step is marked finished; the container is
      destroyed exactly when it is not kept; the reporter, when started, is
      closed, last. */
  lemma {:induction false} ClosingMeaning(args: Args, p: Params, failed: bool)
    ensures var cl := Closing(args, p, failed);
      && (JobStepUpdated(FinishedStatus, Some("failed")) in cl <==> failed && Truthy(args.jobstepId))
      && (ImageUpdated(p.snapshot, "failed") in cl <==> failed && Truthy(args.jobstepId) && p.saveSnapshot)
      && (JobStepUpdated(FinishedStatus, None) in cl <==> Truthy(args.jobstepId))
      && (Destroyed in cl <==> !args.keep)
      && (Kept in cl <==> args.keep)
      && (ReporterClosed in cl <==> Reporting(args))
      && |cl| > 0
      && (Reporting(args) ==> cl[|cl| - 1] == ReporterClosed)
  {
    FailingMeaning(args, p, failed);
    FinallyMeaning(args);
  }

  /** The `except` block's reports come before the `finally` block's events,
      and those in the block's order, each event at most once. */
  lemma ClosingInOrder(args: Args, p: Params, failed: bool)
    ensures StagesIn(Closing(args, p, failed), 0, 4) && Rising(Closing(args, p, failed))
  {
    FailingRising(args, p, failed);
    FinallyRising(args);
    RisingJoin(Failing(args, p, failed), Finally(args), 0, 1, 2, 4);
  }

  /** Stages strictly increase along `s`. */
  predicate Rising(s: seq<Event>)
  {
    forall i, j :: 0 <= i < j < |s| ==> ClosingStage(s[i]) < ClosingStage(s[j])
  }

  /** Every event of `s` stands at a stage from `lo` to `hi`. */
  predicate StagesIn(s: seq<Event>, lo: nat, hi: nat)
  {
    forall i :: 0 <= i < |s| ==> lo <= ClosingStage(s[i]) <= hi
  }

  /** The `except` block's reports come in order, each at stage 0 or 1. */
  lemma FailingRising(args: Args, p: Params, failed: bool)
    ensures Rising(Failing(args, p, failed)) && StagesIn(Failing(args, p, failed), 0, 1)
  {
  }

  /** The `finally` block's events come in order, each at stage 2 to 4. */
  lemma FinallyRising(args: Args)
    ensures Rising(Finally(args)) && StagesIn(Finally(args), 2, 4)
  {
    var a: seq<Event> := if Truthy(args.jobstepId) then [JobStepUpdated(FinishedStatus, None)] else [];
    var b: seq<Event> := if args.keep then [Kept] else [Destroyed];
    var c: seq<Event> := if Reporting(args) then [ReporterClosed] else [];
    assert Finally(args) == a + b + c;
    RisingJoin(a, b, 2, 2, 3, 3);
    RisingJoin(a + b, c, 2, 3, 4, 4);
  }

  /** A rising run at stages `lo` to `mid` followed by one above `mid` is
      one rising run. */
  lemma RisingJoin(a: seq<Event>, b: seq<Event>, lo: nat, mid: nat, above: nat, hi: nat)
    requires Rising(a) && Rising(b) && StagesIn(a, lo, mid) && StagesIn(b, above, hi) && lo <= mid < above <= hi
    ensures Rising(a + b) && StagesIn(a + b, lo, hi)
  {
    forall i, j | 0 <= i < j < |a + b|
      ensures ClosingStage((a + b)[i]) < ClosingStage((a + b)[j])
    {
      if j < |a| {
        assert (a + b)[i] == a[i] && (a + b)[j] == a[j];
      } else if i >= |a| {
        assert (a + b)[i] == b[i - |a|] && (a + b)[j] == b[j - |a|];
      } else {
        assert (a + b)[i] == a[i] && (a + b)[j] == b[j - |a|];
      }
    }
    forall i | 0 <= i < |a + b|
      ensures lo <= ClosingStage((a + b)[i]) <= hi
    {
      if i < |a| {
        assert (a + b)[i] == a[i];
      } else {
        assert (a + b)[i] == b[i - |a|];
      }
    }
  }

  /** The fresh ids `run` draws: the container's name, its host name, the
      names of the post-launch script and of the script, and the image's. */
  datatype Fresh = Fresh(name: string, utsname: string, postScript: string, script: string, image: string)

  /** The container `run` builds for `p`: named `ids.name`, its host name the
      snapshot id or `ids.utsname`, `rootfsItem` its `lxc.rootfs` item. */
  predicate BuiltFor(c: Container, args: Args, p: Params, ids: Fresh, rootfsItem: string)
  {
    && c.name == ids.name && c.release == p.release && c.snapshot == p.snapshot
    && c.validate == args.validate && c.s3Bucket == args.s3Bucket && c.rootfsItem == rootfsItem
    && c.utsname == (if Truthy(p.snapshot) then p.snapshot.value else ids.utsname)
  }

  /** What an operation of the `try` block raises, if anything, on the
      container built for `p`, `running` telling whether it runs: the
      failing assertion of the container method it calls. A command's exit
      status is not checked, so a command raises only in a stopped
      container; marking the image active without an API raises. */
  function OpFault(args: Args, p: Params, ids: Fresh, rootfsItem: string, rt: Runtime, running: bool, op: Event)
    : Option<string>
  {
    var rootfs := Rootfs(rootfsItem);
    match op
    case Launch =>
      Failure(rt, LaunchPlan(ids.name, p.release, p.snapshot, args.validate, args.s3Bucket, rt, rootfs,
                             args.preLaunch, args.postLaunch, p.clean, args.flushCache, ids.postScript))
    case RunCommand(_) => if running then None else Some(NotRunning)
    case RunScript(path) => Failure(rt, RunScriptPlan(ids.name, rt, running, rootfs, path, ids.script, args.user, None, None))
    case RunClient => if running then None else Some(NotRunning)
    case CreateImage =>
      Failure(rt, CreateImagePlan(rt, p.release, ImageName(p, ids.image), rootfsItem,
                                  if Truthy(p.snapshot) then p.snapshot.value else ids.utsname))
    case UploadImage(s) => Failure(rt, UploadPlan(p.release, args.s3Bucket, s))
    case ImageUpdated(_, _) => if Truthy(args.apiUrl) then None else Some(NoApiAttribute)
    case _ => None
  }

  /** The operations begun, `attempted`, went as `fault` says: every one
      before the last raised nothing in the running container, and the
      last raised `fault`, or nothing. */
  predicate Reached(args: Args, p: Params, ids: Fresh, rootfsItem: string, rt: Runtime,
                    attempted: seq<Event>, fault: Option<string>)
    decreases |attempted|
  {
    && attempted != []
    && (|attempted| > 1 ==> Reached(args, p, ids, rootfsItem, rt, attempted[..|attempted| - 1], None))
    && fault == OpFault(args, p, ids, rootfsItem, rt, true, attempted[|attempted| - 1])
  }

  /** An operation begun after operations that raised nothing. */
  lemma ReachedNext(args: Args, p: Params, ids: Fresh, rootfsItem: string, rt: Runtime,
                    attempted: seq<Event>, op: Event, fault: Option<string>)
    requires Reached(args, p, ids, rootfsItem, rt, attempted, None)
    requires fault == OpFault(args, p, ids, rootfsItem, rt, true, op)
    ensures Reached(args, p, ids, rootfsItem, rt, attempted + [op], fault)
  {
    assert (attempted + [op])[..|attempted|] == attempted;
  }

  /** The operations run inside the `try` block, in order, up to the first
      that raises. `attempted` is what was begun; `fault` is what the last
      of them raised, if it did: the container's launch, the script and
      the image steps can raise, a command only if the container is not
      running, which after a launch that raised nothing it is. */
  method Operate(c: Container, rt: Runtime, args: Args, cmd: seq<string>, p: Params, ids: Fresh,
                 ghost rootfsItem: string)
    returns (attempted: seq<Event>, fault: Option<string>)
    requires BuiltFor(c, args, p, ids, rootfsItem)
    modifies c
    ensures attempted <= Operations(args, cmd, p, ImageName(p, ids.image))
    ensures fault.None? ==> attempted == Operations(args, cmd, p, ImageName(p, ids.image))
    ensures Reached(args, p, ids, rootfsItem, rt, attempted, fault)
  {
    attempted, fault := Launched(c, rt, args, cmd, p, ids, rootfsItem);
    if p.saveSnapshot {
      fault, attempted := SaveImage(c, rt, args, p, ids, rootfsItem, [Launch] + Commands(args, cmd), attempted, fault);
    }
  }

  /** The launch and the commands, up to the first that raises. */
  method Launched(c: Container, rt: Runtime, args: Args, cmd: seq<string>, p: Params, ids: Fresh,
                  ghost rootfsItem: string)
    returns (attempted: seq<Event>, fault: Option<string>)
    requires BuiltFor(c, args, p, ids, rootfsItem)
    modifies c
    ensures attempted <= [Launch] + Commands(args, cmd) && Reached(args, p, ids, rootfsItem, rt, attempted, fault)
    ensures fault.None? ==> attempted == [Launch] + Commands(args, cmd)
  {
    ghost var planned := [Launch];
    attempted := [Launch];
    fault := Attempt(c, rt, args, p, ids, rootfsItem, Launch);
    attempted, fault := ContinueIf(c, rt, args, p, ids, rootfsItem, cmd != [], RunCommand(cmd), planned, attempted, fault);
    planned := planned + (if cmd != [] then [RunCommand(cmd)] else []);
    var script := if Truthy(args.script) then args.script.value else "";
    attempted, fault := ContinueIf(c, rt, args, p, ids, rootfsItem, Truthy(args.script), RunScript(script),
                                   planned, attempted, fault);
    planned := planned + (if Truthy(args.script) then [RunScript(args.script.value)] else []);
    attempted, fault := ContinueIf(c, rt, args, p, ids, rootfsItem, Truthy(args.apiUrl) && Truthy(args.jobstepId), RunClient,
                                   planned, attempted, fault);
    planned := planned + (if Truthy(args.apiUrl) && Truthy(args.jobstepId) then [RunClient] else []);
    PlannedCommands(args, cmd);
  }

  /** `Continue` with `op` when `wanted`, otherwise nothing. */
  method ContinueIf(c: Container, rt: Runtime, args: Args, p: Params, ids: Fresh, ghost rootfsItem: string,
                    wanted: bool, op: Event, ghost planned: seq<Event>, attempted0: seq<Event>, fault0: Option<string>)
    returns (attempted: seq<Event>, fault: Option<string>)
    requires BuiltFor(c, args, p, ids, rootfsItem)
    requires op.RunCommand? || op.RunScript? || op == RunClient
    requires wanted && op == RunClient ==> Truthy(args.apiUrl) && Truthy(args.jobstepId)
    requires attempted0 <= planned && Reached(args, p, ids, rootfsItem, rt, attempted0, fault0)
    requires fault0.None? ==> attempted0 == planned && c.running
    modifies c
    ensures var next := planned + (if wanted then [op] else []);
      && attempted <= next && Reached(args, p, ids, rootfsItem, rt, attempted, fault)
      && (fault.None? ==> attempted == next && c.running)
  {
    attempted, fault := attempted0, fault0;
    if wanted {
      attempted, fault := Continue(c, rt, args, p, ids, rootfsItem, op, planned, attempted0, fault0);
    } else {
      assert planned + [] == planned;
    }
  }

  /** The operations planned one by one in `Operate` are the launch and
      the commands. */
  lemma PlannedCommands(args: Args, cmd: seq<string>)
    ensures [Launch] + (if cmd != [] then [RunCommand(cmd)] else [])
            + (if Truthy(args.script) then [RunScript(args.script.value)] else [])
            + (if Truthy(args.apiUrl) && Truthy(args.jobstepId) then [RunClient] else [])
         == [Launch] + Commands(args, cmd)
  {
    var a, b, c := (if cmd != [] then [RunCommand(cmd)] else []),
                   (if Truthy(args.script) then [RunScript(args.script.value)] else []),
                   (if Truthy(args.apiUrl) && Truthy(args.jobstepId) then [RunClient] else []);
    Text.Associative([Launch], a, b);
    Text.Associative([Launch], a + b, c);
  }

  /** The next operation, begun only if none before it raised: after a
      fault nothing more is begun and the fault stands; otherwise `op` is
      begun and raises what the container says it does. */
  method Continue(c: Container, rt: Runtime, args: Args, p: Params, ids: Fresh, ghost rootfsItem: string, op: Event,
                  ghost planned: seq<Event>, attempted0: seq<Event>, fault0: Option<string>)
    returns (attempted: seq<Event>, fault: Option<string>)
    requires BuiltFor(c, args, p, ids, rootfsItem)
    requires op.RunCommand? || op.RunScript? || op == RunClient
    requires op == RunClient ==> Truthy(args.apiUrl) && Truthy(args.jobstepId)
    requires attempted0 <= planned && Reached(args, p, ids, rootfsItem, rt, attempted0, fault0)
    requires fault0.None? ==> attempted0 == planned && c.running
    modifies c
    ensures fault0.Some? ==> attempted == attempted0 && fault == fault0
    ensures fault0.None? ==> attempted == attempted0 + [op]
    ensures attempted <= planned + [op] && Reached(args, p, ids, rootfsItem, rt, attempted, fault)
    ensures fault.None? ==> attempted == planned + [op] && c.running
  {
    attempted, fault := attempted0, fault0;
    if fault0.None? {
      attempted := attempted0 + [op];
      fault := Attempt(c, rt, args, p, ids, rootfsItem, op);
      ReachedNext(args, p, ids, rootfsItem, rt, attempted0, op, fault);
    }
  }

  /** One operation of the `try` block that is a single container call:
      it raises what that call raises, on the container as it is. A
      command's exit status is not checked. */
  method Attempt(c: Container, rt: Runtime, args: Args, p: Params, ids: Fresh, ghost rootfsItem: string, op: Event)
    returns (fault: Option<string>)
    requires BuiltFor(c, args, p, ids, rootfsItem)
    requires op == RunClient ==> Truthy(args.apiUrl) && Truthy(args.jobstepId)
    modifies c
    ensures op.Launch? || op.RunCommand? || op.RunScript? || op == RunClient ==>
      fault == OpFault(args, p, ids, rootfsItem, rt, old(c.running), op)
    ensures op.Launch? ==> (fault.None? ==> c.running)
    ensures !op.Launch? ==> c.running == old(c.running)
  {
    ghost var running := c.running;
    match op {
      case Launch =>
        fault := LaunchIn(c, rt, args, p, ids, rootfsItem);
        LaunchFault(args, p, ids, rootfsItem, rt, running);
      case RunCommand(cmd) =>
        fault := Command(c, rt, cmd, args.user);
        CommandFault(args, p, ids, rootfsItem, rt, running, op);
      case RunScript(path) =>
        fault := Script(c, rt, args, p, ids, rootfsItem, path);
        ScriptFault(args, p, ids, rootfsItem, rt, running, path);
      case RunClient =>
        fault := Command(c, rt, ClientCommand(args.apiUrl.value, args.jobstepId.value), args.user);
        CommandFault(args, p, ids, rootfsItem, rt, running, op);
      case _ =>
        fault := None;
    }
  }

  /** What the launch raises. */
  lemma LaunchFault(args: Args, p: Params, ids: Fresh, rootfsItem: string, rt: Runtime, running: bool)
    ensures OpFault(args, p, ids, rootfsItem, rt, running, Launch)
         == Failure(rt, LaunchPlan(ids.name, p.release, p.snapshot, args.validate, args.s3Bucket, rt, Rootfs(rootfsItem),
                                   args.preLaunch, args.postLaunch, p.clean, args.flushCache, ids.postScript))
  {
  }

  /** What a command, or `changes-client`, raises. */
  lemma CommandFault(args: Args, p: Params, ids: Fresh, rootfsItem: string, rt: Runtime, running: bool, op: Event)
    requires op.RunCommand? || op == RunClient
    ensures OpFault(args, p, ids, rootfsItem, rt, running, op) == if running then None else Some(NotRunning)
  {
  }

  /** What the script raises. */
  lemma ScriptFault(args: Args, p: Params, ids: Fresh, rootfsItem: string, rt: Runtime, running: bool, path: string)
    ensures OpFault(args, p, ids, rootfsItem, rt, running, RunScript(path))
         == Failure(rt, RunScriptPlan(ids.name, rt, running, Rootfs(rootfsItem), path, ids.script, args.user, None, None))
  {
  }

  /** `container.launch(...)` with the options of the command line. */
  method LaunchIn(c: Container, rt: Runtime, args: Args, p: Params, ids: Fresh, ghost rootfsItem: string)
    returns (fault: Option<string>)
    requires BuiltFor(c, args, p, ids, rootfsItem)
    modifies c
    ensures fault == Failure(rt, LaunchPlan(ids.name, p.release, p.snapshot, args.validate, args.s3Bucket, rt, Rootfs(rootfsItem),
                                           args.preLaunch, args.postLaunch, p.clean, args.flushCache, ids.postScript))
    ensures fault.None? ==> c.running
  {
    fault := c.Launch(rt, args.preLaunch, args.postLaunch, p.clean, args.flushCache, ids.postScript);
  }

  /** `container.run_script(path, user=user)`. */
  method Script(c: Container, rt: Runtime, args: Args, p: Params, ids: Fresh, ghost rootfsItem: string, path: string)
    returns (fault: Option<string>)
    requires BuiltFor(c, args, p, ids, rootfsItem)
    modifies c
    ensures fault == Failure(rt, RunScriptPlan(ids.name, rt, old(c.running), Rootfs(rootfsItem), path, ids.script, args.user, None, None))
    ensures c.running == old(c.running)
  {
    fault := c.RunScript(rt, path, ids.script, args.user, None, None);
  }

  /** `container.run(cmd, user=user)`, its exit status unchecked: it
      raises only in a stopped container. */
  method Command(c: Container, rt: Runtime, cmd: seq<string>, user: string) returns (fault: Option<string>)
    modifies c
    ensures fault == if old(c.running) then None else Some(NotRunning)
    ensures c.running == old(c.running)
  {
    var r := c.Run(rt, cmd, None, None, user);
    fault := if r.Err? then Some(r.error) else None;
  }

  /** `create_image()`, `upload_image(snapshot)` with the snapshot it gives
      back, and the image marked active, unless an earlier operation
      raised: each is begun only if the one before it raised nothing, and
      raises what the container, or the missing API, says it does. */
  method SaveImage(c: Container, rt: Runtime, args: Args, p: Params, ids: Fresh, ghost rootfsItem: string,
                   ghost planned: seq<Event>, before: seq<Event>, fault0: Option<string>)
    returns (fault: Option<string>, attempted: seq<Event>)
    modifies c
    requires BuiltFor(c, args, p, ids, rootfsItem)
    requires before <= planned && Reached(args, p, ids, rootfsItem, rt, before, fault0)
    requires fault0.None? ==> before == planned
    ensures fault0.Some? ==> attempted == before && fault == fault0
    ensures var image := ImageName(p, ids.image);
      var all := [CreateImage, UploadImage(image), ImageUpdated(Some(image), "active")];
      && attempted <= planned + all && Reached(args, p, ids, rootfsItem, rt, attempted, fault)
      && (fault0.None? ==> exists k :: 1 <= k <= 3 && attempted == before + all[..k])
      && (fault.None? ==> attempted == planned + all)
  {
    fault, attempted := fault0, before;
    if fault.Some? {
      return;
    }
    fault, attempted := Save(c, rt, args, p, ids, rootfsItem, before);
  }

  /** `SaveImage` when the commands raised nothing. */
  method Save(c: Container, rt: Runtime, args: Args, p: Params, ids: Fresh, ghost rootfsItem: string,
              before: seq<Event>)
    returns (fault: Option<string>, attempted: seq<Event>)
    modifies c
    requires BuiltFor(c, args, p, ids, rootfsItem) && Reached(args, p, ids, rootfsItem, rt, before, None)
    ensures var image := ImageName(p, ids.image);
      var all := [CreateImage, UploadImage(image), ImageUpdated(Some(image), "active")];
      && Reached(args, p, ids, rootfsItem, rt, attempted, fault)
      && (exists k :: 1 <= k <= 3 && attempted == before + all[..k])
      && (fault.None? ==> attempted == before + all)
  {
    var image := ImageName(p, ids.image);
    ghost var all := [CreateImage, UploadImage(image), ImageUpdated(Some(image), "active")];
    attempted := before + [CreateImage];
    assert attempted == before + all[..1];
    fault := Create(c, rt, args, p, ids, rootfsItem, before);
    if fault.Some? {
      return;
    }
    var rest;
    fault, rest := Publish(c, rt, args, p, ids, rootfsItem, attempted, image);
    ghost var k := 1 + |rest|;
    if |rest| == 1 {
      assert rest == all[1..2];
    } else {
      assert rest == all[1..3];
    }
    assert before + [CreateImage] + rest == before + all[..k];
    attempted := attempted + rest;
  }

  /** The creation of the image, after the operations `done`. */
  method Create(c: Container, rt: Runtime, args: Args, p: Params, ids: Fresh, ghost rootfsItem: string,
                ghost done: seq<Event>)
    returns (fault: Option<string>)
    modifies c
    requires BuiltFor(c, args, p, ids, rootfsItem) && Reached(args, p, ids, rootfsItem, rt, done, None)
    ensures Reached(args, p, ids, rootfsItem, rt, done + [CreateImage], fault)
  {
    var created := c.CreateImage(rt, ids.image);
    fault := if created.Err? then Some(created.error) else None;
    ReachedNext(args, p, ids, rootfsItem, rt, done, CreateImage, fault);
  }

  /** The upload of the image just created and its marking as active, up
      to the first that raises, after the operations `done`. */
  method Publish(c: Container, rt: Runtime, args: Args, p: Params, ids: Fresh, ghost rootfsItem: string,
                 ghost done: seq<Event>, image: string)
    returns (fault: Option<string>, rest: seq<Event>)
    modifies c
    requires BuiltFor(c, args, p, ids, rootfsItem) && Reached(args, p, ids, rootfsItem, rt, done, None)
    ensures rest == [UploadImage(image)] || rest == [UploadImage(image), ImageUpdated(Some(image), "active")]
    ensures fault.None? ==> rest == [UploadImage(image), ImageUpdated(Some(image), "active")]
    ensures Reached(args, p, ids, rootfsItem, rt, done + rest, fault)
  {
    rest := [UploadImage(image)];
    fault := c.UploadImage(rt, image);
    ReachedNext(args, p, ids, rootfsItem, rt, done, UploadImage(image), fault);
    if fault.Some? {
      return;
    }
    if !Truthy(args.apiUrl) {
      fault := Some(NoApiAttribute);
    }
    ReachedNext(args, p, ids, rootfsItem, rt, done + rest, ImageUpdated(Some(image), "active"), fault);
    assert done + rest + [ImageUpdated(Some(image), "active")] == done + (rest + [ImageUpdated(Some(image), "active")]);
    rest := rest + [ImageUpdated(Some(image), "active")];
  }

  /** `run`, with the container given its name and the reporter closed on
      every path once it is started: the events before the container is
      built, then, inside the `try` block, the operations up to the first
      that raises, then the `except` and `finally` blocks. `attempted` is
      the operations begun: all but the last raised nothing, and the run
      raised exactly when the last did, with what it raised. */
  method Run(args: Args, jobstep: Result<JobStep, string>, rt: Runtime, ids: Fresh, rootfsItem: string)
    returns (outcome: Outcome, attempted: seq<Event>, events: seq<Event>)
    ensures var prep := Prepare(args, jobstep);
      prep.Refused? ==>
        && outcome == Raised(prep.message) && attempted == []
        && events == Opening(args) + (if Reporting(args) then [ReporterClosed] else [])
    ensures var prep := Prepare(args, jobstep);
      prep.Resolved? ==>
        var ops := Operations(args, DropSeparator(args.cmd), prep.params, ImageName(prep.params, ids.image));
        && attempted <= ops
        && (outcome.Completed? ==> attempted == ops)
        && Reached(args, prep.params, ids, rootfsItem, rt, attempted,
                   if outcome.Raised? then Some(outcome.message) else None)
        && events == Opening(args) + (if Truthy(args.jobstepId) then [JobStepUpdated("in_progress", None)] else [])
                     + attempted + Closing(args, prep.params, outcome.Raised?)
    ensures Prepare(args, jobstep).Resolved? ==> attempted[0] == Launch
    ensures Prepare(args, jobstep).Resolved? && Truthy(args.jobstepId) ==> JobStepUpdated(FinishedStatus, None) in events
    ensures Reporting(args) ==> |events| > 2 && events[0] == ReporterStarted && events[|events| - 1] == ReporterClosed
  {
    var prep := Prepare(args, jobstep);
    if prep.Refused? {
      return Raised(prep.message), [], Opening(args) + (if Reporting(args) then [ReporterClosed] else []);
    }
    outcome, attempted, events := RunWith(args, prep.params, rt, ids, rootfsItem);
  }

  /** `run` once the parameters are resolved, from building the container on. */
  method RunWith(args: Args, p: Params, rt: Runtime, ids: Fresh, rootfsItem: string)
    returns (outcome: Outcome, attempted: seq<Event>, events: seq<Event>)
    ensures var ops := Operations(args, DropSeparator(args.cmd), p, ImageName(p, ids.image));
      && attempted <= ops
      && (outcome.Completed? ==> attempted == ops)
      && Reached(args, p, ids, rootfsItem, rt, attempted, if outcome.Raised? then Some(outcome.message) else None)
    ensures events == Opening(args) + (if Truthy(args.jobstepId) then [JobStepUpdated("in_progress", None)] else [])
                      + attempted + Closing(args, p, outcome.Raised?)
    ensures attempted[0] == Launch
    ensures Truthy(args.jobstepId) ==> JobStepUpdated(FinishedStatus, None) in events
    ensures Reporting(args) ==> |events| > 2 && events[0] == ReporterStarted && events[|events| - 1] == ReporterClosed
  {
    var cmd := DropSeparator(args.cmd);
    var c := new Container(ids.name, p.release, p.snapshot, args.validate, args.s3Bucket, ids.utsname, rootfsItem, rt);
    events := Opening(args) + (if Truthy(args.jobstepId) then [JobStepUpdated("in_progress", None)] else []);
    var fault;
    attempted, fault := Operate(c, rt, args, cmd, p, ids, rootfsItem);
    events := events + attempted;
    // On a job step the snapshot is a well-formed id, and the image saved
    // is named after it, so the `snapshot` variable still names it here.
    var tail := Finish(c, rt, args, p, fault.Some?);
    events := events + tail;
    outcome := if fault.Some? then Raised(fault.value) else Completed;
    LaunchFirst(args, cmd, p, ImageName(p, ids.image));
    ClosingMeaning(args, p, fault.Some?);
  }

  /** A command's exit status never fails a run: what raises is the launch,
      the script or a step of the image. */
  lemma CommandsNeverRaise(args: Args, p: Params, ids: Fresh, rootfsItem: string, rt: Runtime,
                           attempted: seq<Event>, fault: Option<string>)
    requires Reached(args, p, ids, rootfsItem, rt, attempted, fault) && fault.Some?
    ensures var last := attempted[|attempted| - 1];
      last.Launch? || last.RunScript? || last == CreateImage || last.UploadImage? || last.ImageUpdated?
  {
  }

  /** The `except` and `finally` blocks, after a failure or not. */
  method Finish(c: Container, rt: Runtime, args: Args, p: Params, failed: bool) returns (tail: seq<Event>)
    modifies c
    ensures tail == Closing(args, p, failed)
  {
    tail := [];
    if failed && Truthy(args.jobstepId) {
      tail := tail + [JobStepUpdated(FinishedStatus, Some("failed"))];
      if p.saveSnapshot {
        tail := tail + [ImageUpdated(p.snapshot, "failed")];
      }
    }
    if Truthy(args.jobstepId) {
      tail := tail + [JobStepUpdated(FinishedStatus, None)];
    }
    if !args.keep {
      c.Destroy(rt, -1);
      tail := tail + [Destroyed];
    } else {
      tail := tail + [Kept];
    }
    if Reporting(args) {
      tail := tail + [ReporterClosed];
    }
  }

  /** The keywords line 145 passes to `Container`. */
  const WrapperKeywords := {"snapshot", "release", "validate", "s3_bucket"}

  /** `Container(**keywords)`: `name` is a required argument of `__init__`. */
  function ConstructAsWritten(keywords: set<string>): Result<(), string>
  {
    if "name" in keywords then Ok(()) else Err(MissingName)
  }

  /** Lines 82-150 of `run` as written: the container is built without a
      name, which raises before the `try` block, and the reporter thread
      started for a job step is never closed, so the process does not end.
      No run launches a container. */
  function RunAsWritten(args: Args, jobstep: Result<JobStep, string>): (r: (Outcome, seq<Event>))
    ensures r.0.Raised?
    ensures Launch !in r.1
    ensures Reporting(args) ==> ReporterStarted in r.1 && ReporterClosed !in r.1
  {
    var prep := Prepare(args, jobstep);
    if prep.Refused? then (Raised(prep.message), Opening(args))
    else
      var made := ConstructAsWritten(WrapperKeywords);
      if made.Err? then (Raised(made.error), Opening(args)) else (Completed, Opening(args) + [Launch])
  }

  /** `WrappedOutput`: standard output or error once the reporter is
      attached. `stream` is what the wrapped stream has received. */
  class WrappedOutput {
    var stream: seq<string>
    const reporter: LogReporting.LogReporter

    constructor (stream: seq<string>, reporter: LogReporting.LogReporter)
      ensures this.stream == stream && this.reporter == reporter
    {
      this.stream := stream;
      this.reporter := reporter;
    }

    /** `write(chunk)`: the chunk goes to the stream, then to the reporter's
        buffer; nothing is sent yet. */
    method Write(chunk: string)
      modifies this, reporter
      ensures stream == old(stream) + [chunk]
      ensures reporter.buffer == old(reporter.buffer) + [chunk]
      ensures reporter.done == old(reporter.done) && reporter.sent == old(reporter.sent)
    {
      stream := stream + [chunk];
      reporter.Write(chunk);
    }
  }

  /** `patch_system_logging(reporter)`: standard output and error are both
      replaced by wrappers around the one reporter, so what is written to
      either ends up in its buffer, in the order written. */
  method PatchSystemLogging(stdout: seq<string>, stderr: seq<string>, reporter: LogReporting.LogReporter)
    returns (out: WrappedOutput, err: WrappedOutput)
    ensures fresh(out) && fresh(err) && out != err
    ensures out.stream == stdout && err.stream == stderr
    ensures out.reporter == reporter && err.reporter == reporter
  {
    out := new WrappedOutput(stdout, reporter);
    err := new WrappedOutput(stderr, reporter);
  }

  /** A write to standard output and then one to standard error reach the
      shared reporter in that order, each stream keeping its own. */
  method WriteBoth(out: WrappedOutput, err: WrappedOutput, a: string, b: string)
    requires out != err && out.reporter == err.reporter
    modifies out, err, out.reporter
    ensures out.stream == old(out.stream) + [a] && err.stream == old(err.stream) + [b]
    ensures out.reporter.buffer == old(out.reporter.buffer) + [a, b]
  {
    out.Write(a);
    err.Write(b);
  }
}
