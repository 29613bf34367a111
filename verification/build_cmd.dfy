/** The `riot build` command (cmd/build.go): it builds the selected
    applications one after the other and stops at the first build that fails.
    Otherwise it replaces the lock with one that records the image of every
    application built, and saves it. */
module BuildCommand {
  import opened Types
  import opened Locks
  import opened Environment
  import opened Effects
  import opened Builds

  /** The build loop after some of the applications: the names whose build
      was started, in order; the images recorded so far; and the application
      whose build failed, with its error, if one did. */
  datatype BuildProgress = BuildProgress(
    started: seq<string>,
    images: map<string, string>,
    failed: Option<(Application, Error)>)

  /** The loop over `apps`: each build records its image under the
      application's name, replacing an earlier entry of that name, and the
      first failing build ends the loop. */
  function BuildLoop(apps: seq<Application>, env: Env, ws: Workspace, docker: Docker): BuildProgress
  {
    if apps == [] then BuildProgress([], map[], None)
    else
      var p := BuildLoop(Init(apps), env, ws, docker);
      var app := Last(apps);
      if p.failed.Some? then p
      else match BuildOutcome(app, env, ws, docker)
        case Err(e) => BuildProgress(p.started + [app.name], p.images, Some((app, e)))
        case Ok(image) => BuildProgress(p.started + [app.name], p.images[app.name := image], None)
  }

  /** The applications a run builds: the one its argument names, or all of
      them when there is no argument. */
  function Selection(env: Env, args: seq<string>): (r: Result<seq<Application>>)
    ensures |args| == 0 ==> r == env.applications
    ensures |args| > 0 && env.applications.Err? ==> r == Err(env.applications.error)
    ensures |args| > 0 && r.Ok? ==>
      env.applications.Ok? && |r.value| == 1 && r.value[0] in env.applications.value && r.value[0].name == args[0]
    ensures |args| > 0 && env.applications.Ok? ==>
      (r.Err? <==> forall i | 0 <= i < |env.applications.value| :: env.applications.value[i].name != args[0])
  {
    if |args| > 0 then
      FindAppFirst(if env.applications.Ok? then env.applications.value else [], args[0]);
      match LookupApplication(env, args[0])
      case Err(e) => Err(e)
      case Ok(app) => Ok([app])
    else env.applications
  }

  /** What a run does: the builds it starts, the lock it hands to `Save` (if
      it gets that far), and the message it exits with, if it fails. */
  datatype BuildRunResult = BuildRunResult(
    started: seq<string>,
    saved: Option<RiotLock>,
    fatal: Option<string>)

  function SelectionMessage(args: seq<string>, e: Error): string
  {
    if |args| > 0 then ErrorText(e) else "Error while loading application descriptions" + ErrorText(e)
  }

  function BuildRunOutcome(env: Env, args: seq<string>, ws: Workspace, docker: Docker, save: RiotLock -> Option<Error>): BuildRunResult
  {
    match Selection(env, args)
    case Err(e) => BuildRunResult([], None, Some(SelectionMessage(args, e)))
    case Ok(apps) =>
      var p := BuildLoop(apps, env, ws, docker);
      match p.failed
      case Some(f) => BuildRunResult(p.started, None, Some("Error while building " + f.0.name + "\n" + ErrorText(f.1)))
      case None =>
        var lock := RiotLock(p.images, map[]);
        BuildRunResult(p.started, Some(lock),
          match save(lock)
          case Some(e) => Some("Error while saving yarn lock: " + ErrorText(e))
          case None => None)
  }

  /** Once a build has failed, the rest of the applications are not built. */
  lemma {:induction false} FailureStays(apps: seq<Application>, k: int, env: Env, ws: Workspace, docker: Docker)
    requires 0 <= k <= |apps| && BuildLoop(apps[..k], env, ws, docker).failed.Some?
    ensures BuildLoop(apps, env, ws, docker) == BuildLoop(apps[..k], env, ws, docker)
  {
    if k < |apps| {
      assert Init(apps)[..k] == apps[..k];
      FailureStays(Init(apps), k, env, ws, docker);
    } else {
      assert apps[..k] == apps;
    }
  }

  /** `buildCmd.Run` after the environment is loaded: `save` is the outcome
      of writing a lock to the project directory. */
  method BuildRun(env: Env, args: seq<string>, ws: Workspace, docker: Docker, save: RiotLock -> Option<Error>)
    returns (started: seq<string>, saved: Option<RiotLock>, fatal: Option<string>)
    ensures BuildRunResult(started, saved, fatal) == BuildRunOutcome(env, args, ws, docker, save)
  {
    var apps: seq<Application>;
    if |args| > 0 {
      var app := GetApplication(env, args[0]);
      if app.Err? {
        return [], None, Some(ErrorText(app.error));
      }
      apps := [app.value];
    } else {
      var loaded := env.applications;
      if loaded.Err? {
        return [], None, Some("Error while loading application descriptions" + ErrorText(loaded.error));
      }
      apps := loaded.value;
    }
    var appToImage: map<string, string> := map[];
    started := [];
    for i := 0 to |apps|
      invariant BuildLoop(apps[..i], env, ws, docker) == BuildProgress(started, appToImage, None)
    {
      PrefixStep(apps, i);
      var app := apps[i];
      started := started + [app.name];
      var imageName, calls := Build(app, env, ws, docker);
      if imageName.Err? {
        FailureStays(apps, i + 1, env, ws, docker);
        return started, None, Some("Error while building " + app.name + "\n" + ErrorText(imageName.error));
      }
      appToImage := appToImage[app.name := imageName.value];
    }
    PrefixWhole(apps);
    var lock := RiotLock(appToImage, map[]);
    saved := Some(lock);
    var err := save(lock);
    if err.Some? {
      return started, saved, Some("Error while saving yarn lock: " + ErrorText(err.value));
    }
    fatal := None;
  }

  // ---------------------------------------------------------------------------
  // What a run promises

  /** Application `i` is the last of `apps` with its name. */
  predicate LastNamed(apps: seq<Application>, i: int)
  {
    0 <= i < |apps| && forall j | i < j < |apps| :: apps[j].name != apps[i].name
  }

  /** The builds are started in list order, and without a failure every
      build was started. */
  lemma {:induction false} BuildLoopOrder(apps: seq<Application>, env: Env, ws: Workspace, docker: Docker)
    ensures |BuildLoop(apps, env, ws, docker).started| <= |apps|
    ensures forall j | 0 <= j < |BuildLoop(apps, env, ws, docker).started| ::
      BuildLoop(apps, env, ws, docker).started[j] == apps[j].name
    ensures BuildLoop(apps, env, ws, docker).failed.None? ==> |BuildLoop(apps, env, ws, docker).started| == |apps|
  {
    if apps != [] {
      var p := BuildLoop(Init(apps), env, ws, docker);
      BuildLoopOrder(Init(apps), env, ws, docker);
      if p.failed.None? {
        var started := BuildLoop(apps, env, ws, docker).started;
        assert started == p.started + [Last(apps).name];
        assert forall j | 0 <= j < |p.started| :: started[j] == p.started[j];
      }
    }
  }

  /** The loop ends without failure exactly when every build succeeds. */
  lemma {:induction false} BuildLoopAllBuilt(apps: seq<Application>, env: Env, ws: Workspace, docker: Docker)
    ensures BuildLoop(apps, env, ws, docker).failed.None? <==>
      forall i | 0 <= i < |apps| :: BuildOutcome(apps[i], env, ws, docker).Ok?
  {
    if apps != [] {
      BuildLoopAllBuilt(Init(apps), env, ws, docker);
      assert forall i | 0 <= i < |apps| - 1 :: apps[i] == Init(apps)[i];
    }
  }

  /** A failed loop ends with the build that failed, after builds that all
      succeeded. */
  lemma {:induction false} BuildLoopFailure(apps: seq<Application>, env: Env, ws: Workspace, docker: Docker)
    requires BuildLoop(apps, env, ws, docker).failed.Some?
    ensures var p := BuildLoop(apps, env, ws, docker);
      var k := |p.started| - 1;
      && 0 <= k < |apps| && p.failed.value.0 == apps[k]
      && BuildOutcome(apps[k], env, ws, docker) == Err(p.failed.value.1)
      && forall j | 0 <= j < k :: BuildOutcome(apps[j], env, ws, docker).Ok?
  {
    var p := BuildLoop(Init(apps), env, ws, docker);
    if p.failed.Some? {
      BuildLoopFailure(Init(apps), env, ws, docker);
      assert BuildLoop(apps, env, ws, docker) == p;
      var k := |p.started| - 1;
      assert apps[k] == Init(apps)[k];
      forall j | 0 <= j < k ensures BuildOutcome(apps[j], env, ws, docker).Ok? {
        assert apps[j] == Init(apps)[j];
      }
    } else {
      BuildLoopFailsLast(apps, env, ws, docker);
    }
  }

  /** The case of a loop that fails at its last application. */
  lemma BuildLoopFailsLast(apps: seq<Application>, env: Env, ws: Workspace, docker: Docker)
    requires apps != [] && BuildLoop(Init(apps), env, ws, docker).failed.None?
    requires BuildLoop(apps, env, ws, docker).failed.Some?
    ensures var p := BuildLoop(apps, env, ws, docker);
      && |p.started| == |apps| && p.failed.value.0 == Last(apps)
      && BuildOutcome(Last(apps), env, ws, docker) == Err(p.failed.value.1)
      && forall j | 0 <= j < |apps| - 1 :: BuildOutcome(apps[j], env, ws, docker).Ok?
  {
    var p := BuildLoop(Init(apps), env, ws, docker);
    BuildLoopOrder(Init(apps), env, ws, docker);
    BuildLoopAllBuilt(Init(apps), env, ws, docker);
    forall j | 0 <= j < |apps| - 1 ensures BuildOutcome(apps[j], env, ws, docker).Ok? {
      assert apps[j] == Init(apps)[j];
    }
  }

  /** Without a failure, the recorded names are exactly the names of the
      applications. */
  lemma {:induction false} BuildLoopKeys(apps: seq<Application>, env: Env, ws: Workspace, docker: Docker, n: string)
    requires BuildLoop(apps, env, ws, docker).failed.None?
    ensures n in BuildLoop(apps, env, ws, docker).images <==> exists i | 0 <= i < |apps| :: apps[i].name == n
  {
    if apps != [] {
      BuildLoopKeys(Init(apps), env, ws, docker, n);
      assert forall i | 0 <= i < |apps| - 1 :: apps[i] == Init(apps)[i];
    }
  }

  /** Without a failure, each name records the image built for the last
      application of that name. */
  lemma {:induction false} BuildLoopImage(apps: seq<Application>, env: Env, ws: Workspace, docker: Docker, i: int)
    requires BuildLoop(apps, env, ws, docker).failed.None? && LastNamed(apps, i)
    ensures BuildOutcome(apps[i], env, ws, docker).Ok?
    ensures apps[i].name in BuildLoop(apps, env, ws, docker).images
    ensures BuildLoop(apps, env, ws, docker).images[apps[i].name] == BuildOutcome(apps[i], env, ws, docker).value
  {
    if i < |apps| - 1 {
      assert LastNamed(Init(apps), i);
      BuildLoopImage(Init(apps), env, ws, docker, i);
    }
  }

  /** The lock is saved exactly when the selection succeeds and every
      selected build succeeds: the first failure ends the run unsaved. */
  lemma BuildRunSaves(env: Env, args: seq<string>, ws: Workspace, docker: Docker, save: RiotLock -> Option<Error>)
    ensures BuildRunOutcome(env, args, ws, docker, save).saved.Some? <==>
      && Selection(env, args).Ok?
      && forall i | 0 <= i < |Selection(env, args).value| ::
           BuildOutcome(Selection(env, args).value[i], env, ws, docker).Ok?
    ensures BuildRunOutcome(env, args, ws, docker, save).saved.None? ==>
      BuildRunOutcome(env, args, ws, docker, save).fatal.Some?
  {
    if Selection(env, args).Ok? {
      BuildLoopAllBuilt(Selection(env, args).value, env, ws, docker);
    }
  }

  /** The loop stops at the first failing build: it started the builds up to
      that one, and records that application and its error. */
  lemma BuildLoopStopsAt(apps: seq<Application>, env: Env, ws: Workspace, docker: Docker, k: int)
    requires 0 <= k < |apps| && BuildOutcome(apps[k], env, ws, docker).Err?
    requires forall j | 0 <= j < k :: BuildOutcome(apps[j], env, ws, docker).Ok?
    ensures BuildLoop(apps, env, ws, docker).failed == Some((apps[k], BuildOutcome(apps[k], env, ws, docker).error))
    ensures |BuildLoop(apps, env, ws, docker).started| == k + 1
    ensures forall j | 0 <= j <= k :: BuildLoop(apps, env, ws, docker).started[j] == apps[j].name
  {
    BuildLoopAllBuilt(apps, env, ws, docker);
    BuildLoopFailure(apps, env, ws, docker);
    BuildLoopOrder(apps, env, ws, docker);
    var p := BuildLoop(apps, env, ws, docker);
    assert |p.started| - 1 == k;
  }

  /** The first failing build ends the run: the builds after it are not
      started, no lock is saved, and the run exits naming that application
      and its error. */
  lemma BuildRunStopsAtFailure(env: Env, args: seq<string>, ws: Workspace, docker: Docker, save: RiotLock -> Option<Error>, k: int)
    requires Selection(env, args).Ok? && 0 <= k < |Selection(env, args).value|
    requires BuildOutcome(Selection(env, args).value[k], env, ws, docker).Err?
    requires forall j | 0 <= j < k :: BuildOutcome(Selection(env, args).value[j], env, ws, docker).Ok?
    ensures var apps := Selection(env, args).value;
      var out := BuildRunOutcome(env, args, ws, docker, save);
      && out.saved == None
      && |out.started| == k + 1
      && (forall j | 0 <= j <= k :: out.started[j] == apps[j].name)
      && out.fatal == Some("Error while building " + apps[k].name + "\n"
                           + ErrorText(BuildOutcome(apps[k], env, ws, docker).error))
  {
    BuildLoopStopsAt(Selection(env, args).value, env, ws, docker, k);
  }

  /** The saved lock replaces the old one wholesale: it records no
      deployments, its versions name exactly the selected applications, and
      each holds the image built for the last application of that name. A
      run that saves started every selected build. */
  lemma BuildRunLock(env: Env, args: seq<string>, ws: Workspace, docker: Docker, save: RiotLock -> Option<Error>)
    requires BuildRunOutcome(env, args, ws, docker, save).saved.Some?
    ensures Selection(env, args).Ok?
    ensures var apps := Selection(env, args).value;
      var out := BuildRunOutcome(env, args, ws, docker, save);
      var lock := out.saved.value;
      && lock.deployments == map[]
      && |out.started| == |apps|
      && (forall j | 0 <= j < |apps| :: out.started[j] == apps[j].name)
      && (forall n :: n in lock.versions <==> exists i | 0 <= i < |apps| :: apps[i].name == n)
      && (forall i | LastNamed(apps, i) ::
            BuildOutcome(apps[i], env, ws, docker).Ok?
            && lock.versions[apps[i].name] == BuildOutcome(apps[i], env, ws, docker).value)
  {
    var apps := Selection(env, args).value;
    BuildLoopOrder(apps, env, ws, docker);
    forall n ensures n in BuildLoop(apps, env, ws, docker).images <==> exists i | 0 <= i < |apps| :: apps[i].name == n {
      BuildLoopKeys(apps, env, ws, docker, n);
    }
    forall i | LastNamed(apps, i)
      ensures BuildOutcome(apps[i], env, ws, docker).Ok?
      ensures BuildLoop(apps, env, ws, docker).images[apps[i].name] == BuildOutcome(apps[i], env, ws, docker).value
    {
      BuildLoopImage(apps, env, ws, docker, i);
    }
  }

  /** An application without a Dockerfile is recorded under its configured
      image. */
  lemma BuildRunKeepsImage(env: Env, args: seq<string>, ws: Workspace, docker: Docker, save: RiotLock -> Option<Error>, i: int)
    requires BuildRunOutcome(env, args, ws, docker, save).saved.Some?
    requires Selection(env, args).Ok? && LastNamed(Selection(env, args).value, i)
    requires !ws.dockerfile(DockerfilePath(env, Selection(env, args).value[i]))
    ensures Selection(env, args).value[i].name in BuildRunOutcome(env, args, ws, docker, save).saved.value.versions
    ensures var app := Selection(env, args).value[i];
      BuildRunOutcome(env, args, ws, docker, save).saved.value.versions[app.name] == app.image
  {
    BuildLoopImage(Selection(env, args).value, env, ws, docker, i);
  }

  /** With an argument, only the application of that name is built. */
  lemma BuildRunSingle(env: Env, args: seq<string>, ws: Workspace, docker: Docker, save: RiotLock -> Option<Error>)
    requires |args| > 0
    ensures var started := BuildRunOutcome(env, args, ws, docker, save).started;
      started == [] || started == [args[0]]
    ensures Selection(env, args).Ok? ==>
      exists i :: FirstNamedApp(env.applications.value, args[0], i)
        && Selection(env, args).value == [env.applications.value[i]]
  {
    if Selection(env, args).Ok? {
      LookupApplicationNamed(env, args[0]);
      FindAppFirst(env.applications.value, args[0]);
      BuildLoopOrder(Selection(env, args).value, env, ws, docker);
    }
  }
}
