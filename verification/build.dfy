/** Building the image of one application (pkg/projectlib/build.go): without a
    Dockerfile the configured image is used as it is; otherwise a chain of
    local and engine calls, with an early return on every failure, builds,
    tags and (unless switched off) pushes a freshly named image. */
module Builds {
  import opened Types
  import opened Environment
  import opened Effects

  /** `path.Join(basedir, "applications", name)`. */
  function AppDir(env: Env, app: Application): string
  {
    JoinPath(JoinPath(GetBaseDir(env), "applications"), app.name)
  }

  function DockerfilePath(env: Env, app: Application): string
  {
    JoinPath(AppDir(env, app), "Dockerfile")
  }

  /** The name an image is built, tagged and pushed under: a repository on the
      registry's host, tagged with the version token. */
  function ImageName(registry: RegistryCfg, appName: string, version: string): (r: string)
    ensures |r| == |registry.host| + |appName| + |version| + 2
    ensures r[..|registry.host| + 1] == registry.host + "/"
    ensures r[|r| - |version| - 1..] == ":" + version
  {
    registry.host + "/" + appName + ":" + version
  }

  /** Two builds of one application get the same name only with the same
      version token. */
  lemma ImageNameInjective(registry: RegistryCfg, appName: string, v1: string, v2: string)
    requires ImageName(registry, appName, v1) == ImageName(registry, appName, v2)
    ensures v1 == v2
  {
    var prefix := registry.host + "/" + appName + ":";
    assert ImageName(registry, appName, v1) == prefix + v1;
    assert ImageName(registry, appName, v2) == prefix + v2;
    assert v1 == (prefix + v1)[|prefix|..];
  }

  // ---------------------------------------------------------------------------
  // The build context

  /** The directory entries other than `.` and `..`, each joined to `dir`, in
      listing order. */
  function ContextFiles(dir: string, entries: seq<string>): seq<string>
  {
    if entries == [] then []
    else
      var name := Last(entries);
      ContextFiles(dir, Init(entries)) + if name != "." && name != ".." then [JoinPath(dir, name)] else []
  }

  /** The loop collecting the file list of the build context. */
  method ListContextFiles(dir: string, entries: seq<string>) returns (filelist: seq<string>)
    ensures filelist == ContextFiles(dir, entries)
  {
    filelist := [];
    for i := 0 to |entries|
      invariant filelist == ContextFiles(dir, entries[..i])
    {
      PrefixStep(entries, i);
      if entries[i] != "." && entries[i] != ".." {
        filelist := filelist + [JoinPath(dir, entries[i])];
      }
    }
    PrefixWhole(entries);
  }

  /** A path is in the context exactly when it joins an entry other than `.`
      and `..` to the directory. */
  lemma {:induction false} ContextFilesMembers(dir: string, entries: seq<string>, f: string)
    ensures f in ContextFiles(dir, entries) <==>
      exists e | e in entries :: e != "." && e != ".." && f == JoinPath(dir, e)
  {
    if entries != [] {
      ContextFilesMembers(dir, Init(entries), f);
      assert entries == Init(entries) + [Last(entries)];
    }
  }

  /** Every entry but the `.` and `..` ones contributes one file. */
  lemma {:induction false} ContextFilesCount(dir: string, entries: seq<string>)
    ensures |ContextFiles(dir, entries)| == |entries| - multiset(entries)["."] - multiset(entries)[".."]
  {
    if entries != [] {
      ContextFilesCount(dir, Init(entries));
      assert entries == Init(entries) + [Last(entries)];
    }
  }

  // ---------------------------------------------------------------------------
  // The chain of calls

  /** The calls a build plans, in order, when the Dockerfile exists: resolve
      the build node; connect to its engine and read the application
      directory; make the build context from the file list; build the image
      with the application's build arguments, tagged with its name; and,
      unless pushing is switched off, get the registry credentials and push
      the image under that name. A call whose result later calls need ends the
      plan when it fails. */
  function BuildPlan(app: Application, env: Env, ws: Workspace): seq<Call>
  {
    if !ws.dockerfile(DockerfilePath(env, app)) then []
    else [ResolveBuildNode(app)] + OnNode(app, env, ws, ws.buildNode(app))
  }

  function OnNode(app: Application, env: Env, ws: Workspace, resolved: Result<Node>): seq<Call>
  {
    match resolved
    case Err(_) => []
    case Ok(node) => [Connect(node)] + ([ReadDir(AppDir(env, app))] + FromListing(app, env, ws, node, ws.readDir(AppDir(env, app))))
  }

  function FromListing(app: Application, env: Env, ws: Workspace, node: Node, listing: Result<seq<string>>): seq<Call>
  {
    match listing
    case Err(_) => []
    case Ok(entries) =>
      var files := ContextFiles(AppDir(env, app), entries);
      var name := ImageName(GetRegistry(env), app.name, ws.versionToken(app.name));
      [MakeContext(files)] + ([ImageBuild(node, files, app.buildCfg.args, [name])] + Publish(app, ws, node, name))
  }

  function Publish(app: Application, ws: Workspace, node: Node, name: string): seq<Call>
  {
    if app.buildCfg.dontPush then [] else [GetAuth] + Pushed(node, name, ws.auth)
  }

  function Pushed(node: Node, name: string, auth: Result<string>): seq<Call>
  {
    match auth
    case Err(_) => []
    case Ok(a) => [Push(node, name, a)]
  }

  /** What a build returns: the configured image when there is no Dockerfile;
      else the error of the first call that fails; else the new image name. */
  function BuildOutcome(app: Application, env: Env, ws: Workspace, docker: Docker): Result<string>
  {
    if !ws.dockerfile(DockerfilePath(env, app)) then Ok(app.image)
    else match FirstFailure(BuildPlan(app, env, ws), Builder(docker, ws))
      case Some(e) => Err(e)
      case None => Ok(ImageName(GetRegistry(env), app.name, ws.versionToken(app.name)))
  }

  // The build read step by step, as the source makes its calls: after the
  // calls `done`, each stage gives the result and all the calls made.

  ghost function BuildSteps(app: Application, env: Env, ws: Workspace, docker: Docker): (Result<string>, seq<Call>)
  {
    if !ws.dockerfile(DockerfilePath(env, app)) then (Ok(app.image), [])
    else
      var resolving := [] + [ResolveBuildNode(app)];
      match ws.buildNode(app)
      case Err(e) => (Err(e), resolving)
      case Ok(node) => NodeSteps(app, env, ws, docker, node, resolving)
  }

  ghost function NodeSteps(app: Application, env: Env, ws: Workspace, docker: Docker, node: Node, done: seq<Call>): (Result<string>, seq<Call>)
  {
    var connected := done + [Connect(node)];
    if docker.connect(node).Some? then (Err(docker.connect(node).value), connected)
    else
      var reading := connected + [ReadDir(AppDir(env, app))];
      match ws.readDir(AppDir(env, app))
      case Err(e) => (Err(e), reading)
      case Ok(entries) => ContextSteps(app, env, ws, docker, node, entries, reading)
  }

  ghost function ContextSteps(app: Application, env: Env, ws: Workspace, docker: Docker, node: Node, entries: seq<string>, done: seq<Call>): (Result<string>, seq<Call>)
  {
    var files := ContextFiles(AppDir(env, app), entries);
    var name := ImageName(GetRegistry(env), app.name, ws.versionToken(app.name));
    var packed := done + [MakeContext(files)];
    if ws.makeContext(files).Some? then (Err(ws.makeContext(files).value), packed)
    else
      var built := packed + [ImageBuild(node, files, app.buildCfg.args, [name])];
      if docker.build(node, files, app.buildCfg.args, [name]).Some? then
        (Err(docker.build(node, files, app.buildCfg.args, [name]).value), built)
      else PublishSteps(app, ws, docker, node, name, built)
  }

  ghost function PublishSteps(app: Application, ws: Workspace, docker: Docker, node: Node, name: string, done: seq<Call>): (Result<string>, seq<Call>)
  {
    if app.buildCfg.dontPush then (Ok(name), done)
    else
      var authorized := done + [GetAuth];
      match ws.auth
      case Err(e) => (Err(e), authorized)
      case Ok(a) =>
        var pushed := authorized + [Push(node, name, a)];
        if docker.push(node, name, a).Some? then (Err(docker.push(node, name, a).value), pushed)
        else (Ok(name), pushed)
  }

  /** The result a chain ends in, given its first failure. */
  function BuildEnding(failure: Option<Error>, name: string): Result<string>
  {
    match failure
    case Some(e) => Err(e)
    case None => Ok(name)
  }

  lemma PublishStepsChain(app: Application, ws: Workspace, docker: Docker, node: Node, name: string, done: seq<Call>)
    ensures PublishSteps(app, ws, docker, node, name, done).1 == done + Executed(Publish(app, ws, node, name), Builder(docker, ws))
    ensures PublishSteps(app, ws, docker, node, name, done).0 ==
      BuildEnding(FirstFailure(Publish(app, ws, node, name), Builder(docker, ws)), name)
  {
    var run := Builder(docker, ws);
    if !app.buildCfg.dontPush {
      ExecutedStep(done, GetAuth, Pushed(node, name, ws.auth), run);
      if ws.auth.Ok? {
        assert Pushed(node, name, ws.auth) == [Push(node, name, ws.auth.value)] + [];
        ExecutedStep(done + [GetAuth], Push(node, name, ws.auth.value), [], run);
      }
    }
  }

  lemma ContextStepsChain(app: Application, env: Env, ws: Workspace, docker: Docker, node: Node, entries: seq<string>, done: seq<Call>)
    ensures ContextSteps(app, env, ws, docker, node, entries, done).1 ==
      done + Executed(FromListing(app, env, ws, node, Ok(entries)), Builder(docker, ws))
    ensures ContextSteps(app, env, ws, docker, node, entries, done).0 ==
      BuildEnding(FirstFailure(FromListing(app, env, ws, node, Ok(entries)), Builder(docker, ws)),
             ImageName(GetRegistry(env), app.name, ws.versionToken(app.name)))
  {
    var run := Builder(docker, ws);
    var files := ContextFiles(AppDir(env, app), entries);
    var name := ImageName(GetRegistry(env), app.name, ws.versionToken(app.name));
    var build := ImageBuild(node, files, app.buildCfg.args, [name]);
    ExecutedStep(done, MakeContext(files), [build] + Publish(app, ws, node, name), run);
    ExecutedStep(done + [MakeContext(files)], build, Publish(app, ws, node, name), run);
    PublishStepsChain(app, ws, docker, node, name, done + [MakeContext(files)] + [build]);
  }

  lemma NodeStepsChain(app: Application, env: Env, ws: Workspace, docker: Docker, node: Node, done: seq<Call>)
    ensures NodeSteps(app, env, ws, docker, node, done).1 ==
      done + Executed(OnNode(app, env, ws, Ok(node)), Builder(docker, ws))
    ensures NodeSteps(app, env, ws, docker, node, done).0 ==
      BuildEnding(FirstFailure(OnNode(app, env, ws, Ok(node)), Builder(docker, ws)),
             ImageName(GetRegistry(env), app.name, ws.versionToken(app.name)))
  {
    var run := Builder(docker, ws);
    var dir := AppDir(env, app);
    var rest := FromListing(app, env, ws, node, ws.readDir(dir));
    ExecutedStep(done, Connect(node), [ReadDir(dir)] + rest, run);
    ExecutedStep(done + [Connect(node)], ReadDir(dir), rest, run);
    if ws.readDir(dir).Ok? {
      ContextStepsChain(app, env, ws, docker, node, ws.readDir(dir).value, done + [Connect(node)] + [ReadDir(dir)]);
    }
  }

  /** Read step by step, a build is the chain of its planned calls. */
  lemma BuildStepsChain(app: Application, env: Env, ws: Workspace, docker: Docker)
    ensures BuildSteps(app, env, ws, docker).1 == Executed(BuildPlan(app, env, ws), Builder(docker, ws))
    ensures BuildSteps(app, env, ws, docker).0 == BuildOutcome(app, env, ws, docker)
  {
    var run := Builder(docker, ws);
    if ws.dockerfile(DockerfilePath(env, app)) {
      var plan := BuildPlan(app, env, ws);
      ExecutedStep([], ResolveBuildNode(app), OnNode(app, env, ws, ws.buildNode(app)), run);
      assert [] + Executed(plan, run) == Executed(plan, run);
      if ws.buildNode(app).Ok? {
        NodeStepsChain(app, env, ws, docker, ws.buildNode(app).value, [] + [ResolveBuildNode(app)]);
      }
    }
  }

  /** `Application.Build`: the calls it makes, in order, and the image name it
      returns. A returned error stands for the empty name with that error. */
  method Build(app: Application, env: Env, ws: Workspace, docker: Docker)
    returns (r: Result<string>, calls: seq<Call>)
    ensures calls == Executed(BuildPlan(app, env, ws), Builder(docker, ws))
    ensures r == BuildOutcome(app, env, ws, docker)
    ensures !ws.dockerfile(DockerfilePath(env, app)) ==> r == Ok(app.image) && calls == []
  {
    BuildStepsChain(app, env, ws, docker);
    var appBasedir := AppDir(env, app);
    var dockerfilePath := JoinPath(appBasedir, "Dockerfile");
    calls := [];
    if !ws.dockerfile(dockerfilePath) {
      return Ok(app.image), calls;
    }
    calls := calls + [ResolveBuildNode(app)];
    var resolved := ws.buildNode(app);
    if resolved.Err? {
      return Err(resolved.error), calls;
    }
    var node := resolved.value;
    calls := calls + [Connect(node)];
    var err := docker.connect(node);
    if err.Some? {
      return Err(err.value), calls;
    }
    calls := calls + [ReadDir(appBasedir)];
    var fileinfo := ws.readDir(appBasedir);
    if fileinfo.Err? {
      return Err(fileinfo.error), calls;
    }
    var filelist := ListContextFiles(appBasedir, fileinfo.value);
    calls := calls + [MakeContext(filelist)];
    err := ws.makeContext(filelist);
    if err.Some? {
      return Err(err.value), calls;
    }
    var imageVersion := ws.versionToken(app.name);
    var imageName := GetRegistry(env).host + "/" + app.name + ":" + imageVersion;
    calls := calls + [ImageBuild(node, filelist, app.buildCfg.args, [imageName])];
    err := docker.build(node, filelist, app.buildCfg.args, [imageName]);
    if err.Some? {
      return Err(err.value), calls;
    }
    if !app.buildCfg.dontPush {
      calls := calls + [GetAuth];
      var authString := ws.auth;
      if authString.Err? {
        return Err(authString.error), calls;
      }
      calls := calls + [Push(node, imageName, authString.value)];
      err := docker.push(node, imageName, authString.value);
      if err.Some? {
        return Err(err.value), calls;
      }
    }
    return Ok(imageName), calls;
  }

  // ---------------------------------------------------------------------------
  // What a build promises

  /** A build with a Dockerfile succeeds exactly when every planned call
      succeeds, and then it makes every planned call. */
  lemma BuildSucceeds(app: Application, env: Env, ws: Workspace, docker: Docker)
    requires ws.dockerfile(DockerfilePath(env, app))
    ensures BuildOutcome(app, env, ws, docker).Ok? <==>
      forall i | 0 <= i < |BuildPlan(app, env, ws)| :: Failure(docker, ws, BuildPlan(app, env, ws)[i]).None?
    ensures BuildOutcome(app, env, ws, docker).Ok? ==>
      Executed(BuildPlan(app, env, ws), Builder(docker, ws)) == BuildPlan(app, env, ws)
  {
    ExecutedEnd(BuildPlan(app, env, ws), Builder(docker, ws));
  }

  /** A failed build ends with the call that failed, and returns its error. */
  lemma BuildFails(app: Application, env: Env, ws: Workspace, docker: Docker)
    requires BuildOutcome(app, env, ws, docker).Err?
    ensures var calls := Executed(BuildPlan(app, env, ws), Builder(docker, ws));
      calls != [] && Failure(docker, ws, Last(calls)) == Some(BuildOutcome(app, env, ws, docker).error)
  {
    ExecutedEnd(BuildPlan(app, env, ws), Builder(docker, ws));
  }

  /** A successful build with a Dockerfile resolved its node, listed the
      application directory and, when pushing, got the registry credentials.
      It built the image on that node from the listed context with the
      application's build arguments, tagged with the returned name, and pushed
      it, from the same node and under the same name, exactly when pushing is
      not switched off. */
  lemma BuildSuccessCalls(app: Application, env: Env, ws: Workspace, docker: Docker)
    requires ws.dockerfile(DockerfilePath(env, app)) && BuildOutcome(app, env, ws, docker).Ok?
    ensures ws.buildNode(app).Ok? && ws.readDir(AppDir(env, app)).Ok?
    ensures !app.buildCfg.dontPush ==> ws.auth.Ok?
    ensures BuildOutcome(app, env, ws, docker).value == ImageName(GetRegistry(env), app.name, ws.versionToken(app.name))
    ensures
      var node := ws.buildNode(app).value;
      var files := ContextFiles(AppDir(env, app), ws.readDir(AppDir(env, app)).value);
      var name := BuildOutcome(app, env, ws, docker).value;
      Executed(BuildPlan(app, env, ws), Builder(docker, ws)) ==
        [ResolveBuildNode(app), Connect(node), ReadDir(AppDir(env, app)), MakeContext(files),
         ImageBuild(node, files, app.buildCfg.args, [name])]
        + (if app.buildCfg.dontPush then [] else [GetAuth, Push(node, name, ws.auth.value)])
  {
    var plan := BuildPlan(app, env, ws);
    ExecutedEnd(plan, Builder(docker, ws));
    assert Failure(docker, ws, plan[0]).None?;
    var node := ws.buildNode(app).value;
    var dir := AppDir(env, app);
    assert plan[2] == ReadDir(dir);
    assert Failure(docker, ws, plan[2]).None?;
    var files := ContextFiles(dir, ws.readDir(dir).value);
    var name := ImageName(GetRegistry(env), app.name, ws.versionToken(app.name));
    var front := [ResolveBuildNode(app), Connect(node), ReadDir(dir), MakeContext(files),
                  ImageBuild(node, files, app.buildCfg.args, [name])];
    assert plan == front + Publish(app, ws, node, name);
    if !app.buildCfg.dontPush {
      assert plan[5] == GetAuth;
      assert Failure(docker, ws, plan[5]).None?;
    }
  }

  /** With pushing switched off, a build never asks for credentials and
      never pushes, whatever fails. */
  lemma BuildNoPushWhenDisabled(app: Application, env: Env, ws: Workspace, docker: Docker)
    requires app.buildCfg.dontPush
    ensures forall c | c in Executed(BuildPlan(app, env, ws), Builder(docker, ws)) :: !c.GetAuth? && !c.Push?
  {
    var plan := BuildPlan(app, env, ws);
    forall c | c in Executed(plan, Builder(docker, ws)) ensures !c.GetAuth? && !c.Push? {
      ExecutedMembers(plan, Builder(docker, ws), c);
      NotPlannedWhenDisabled(app, env, ws, c);
    }
  }

  lemma NotPlannedWhenDisabled(app: Application, env: Env, ws: Workspace, c: Call)
    requires app.buildCfg.dontPush && c in BuildPlan(app, env, ws)
    ensures !c.GetAuth? && !c.Push?
  {
    var resolved := ws.buildNode(app);
    if resolved.Ok? && c != ResolveBuildNode(app) {
      var node := resolved.value;
      var dir := AppDir(env, app);
      assert c in OnNode(app, env, ws, resolved);
      if c != Connect(node) && c != ReadDir(dir) {
        assert c in FromListing(app, env, ws, node, ws.readDir(dir));
      }
    }
  }
}
