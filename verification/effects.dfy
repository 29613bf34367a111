/** The collaborators the core drives but does not implement: the Docker engine
    of each node, and the local filesystem, registry credentials and version
    token generator used by a build. Each is given as a fixed function from the
    call's arguments to its outcome, so that every combination of successes and
    failures is an input of the model. The operations report what they called as
    a trace of `Call`s. */
module Effects {
  import opened Types

  /** The Docker engine reached through `Node.GetDockerClient`. */
  datatype Docker = Docker(
    connect: Node -> Option<Error>,
    pull: (Node, string) -> Option<Error>,
    stop: (Node, string) -> Option<Error>,
    create: (Node, string) -> Result<string>,
    start: (Node, string) -> Option<Error>,
    build: (Node, seq<string>, map<string, string>, seq<string>) -> Option<Error>,
    push: (Node, string, string) -> Option<Error>)

  /** What a build asks of the machine it runs on. `dockerfile(p)` says whether
      `os.Stat(p)` does not report "not exist"; `buildNode` is the outcome of
      `Application.GetBuildNode`; `makeContext` creates the temporary tar.gz
      build context from a file list; `versionToken` is the token `xid.New()`
      yields for the build of the named application; `auth` is the outcome of
      `RegistryCfg.GetAuthString`. */
  datatype Workspace = Workspace(
    dockerfile: string -> bool,
    buildNode: Application -> Result<Node>,
    readDir: string -> Result<seq<string>>,
    makeContext: seq<string> -> Option<Error>,
    versionToken: string -> string,
    auth: Result<string>)

  /** One call made by Deploy or Build, in the order made. */
  datatype Call =
    | Connect(node: Node)
    | Pull(node: Node, image: string)
    | Stop(node: Node, id: string)
    | Create(node: Node, image: string)
    | Start(node: Node, id: string)
    | ResolveBuildNode(app: Application)
    | ReadDir(dir: string)
    | MakeContext(files: seq<string>)
    | ImageBuild(node: Node, files: seq<string>, args: map<string, string>, tags: seq<string>)
    | GetAuth
    | Push(node: Node, image: string, auth: string)

  /** The error a call to a Docker engine ends in (none for a local call). */
  function EngineFailure(docker: Docker, c: Call): Option<Error>
  {
    match c
    case Connect(n) => docker.connect(n)
    case Pull(n, img) => docker.pull(n, img)
    case Stop(n, id) => docker.stop(n, id)
    case Create(n, img) => if docker.create(n, img).Err? then Some(docker.create(n, img).error) else None
    case Start(n, id) => docker.start(n, id)
    case ImageBuild(n, files, args, tags) => docker.build(n, files, args, tags)
    case Push(n, img, a) => docker.push(n, img, a)
    case _ => None
  }

  /** The error a local call of a build ends in (none for an engine call). */
  function LocalFailure(ws: Workspace, c: Call): Option<Error>
  {
    match c
    case ResolveBuildNode(app) => if ws.buildNode(app).Err? then Some(ws.buildNode(app).error) else None
    case ReadDir(dir) => if ws.readDir(dir).Err? then Some(ws.readDir(dir).error) else None
    case MakeContext(files) => ws.makeContext(files)
    case GetAuth => if ws.auth.Err? then Some(ws.auth.error) else None
    case _ => None
  }

  /** The error any call ends in. */
  function Failure(docker: Docker, ws: Workspace, c: Call): Option<Error>
  {
    if c.ResolveBuildNode? || c.ReadDir? || c.MakeContext? || c.GetAuth?
    then LocalFailure(ws, c) else EngineFailure(docker, c)
  }

  /** Who answers the calls of a chain: a node's engine alone (a deployment),
      or the engine together with the local machine (a build). */
  datatype Runner = Engine(docker: Docker) | Builder(docker: Docker, ws: Workspace)

  /** The error call `c` ends in, when made through `run`. */
  function Fails(run: Runner, c: Call): Option<Error>
  {
    match run
    case Engine(docker) => EngineFailure(docker, c)
    case Builder(docker, ws) => Failure(docker, ws, c)
  }

  // ---------------------------------------------------------------------------
  // A chain of calls with early returns

  /** The calls of `plan` that are made when every failure returns at once:
      all of them up to and including the first that fails. */
  function Executed(plan: seq<Call>, run: Runner): seq<Call>
  {
    if plan == [] then []
    else if Fails(run, plan[0]).Some? then [plan[0]]
    else [plan[0]] + Executed(plan[1..], run)
  }

  /** The error of the first call of `plan` that fails, if any. */
  function FirstFailure(plan: seq<Call>, run: Runner): Option<Error>
  {
    if plan == [] then None
    else if Fails(run, plan[0]).Some? then Fails(run, plan[0])
    else FirstFailure(plan[1..], run)
  }

  /** The calls made are a prefix of the plan, and every call but the last
      made succeeds. */
  lemma {:induction false} ExecutedPrefix(plan: seq<Call>, run: Runner)
    ensures |Executed(plan, run)| <= |plan|
    ensures Executed(plan, run) == plan[..|Executed(plan, run)|]
    ensures forall i | 0 <= i < |Executed(plan, run)| - 1 :: Fails(run, Executed(plan, run)[i]).None?
  {
    if plan != [] && Fails(run, plan[0]).None? {
      ExecutedPrefix(plan[1..], run);
      var rest := Executed(plan[1..], run);
      assert Executed(plan, run) == [plan[0]] + rest;
      forall i | 0 <= i < |Executed(plan, run)| - 1
        ensures Fails(run, Executed(plan, run)[i]).None?
      {
        if i > 0 {
          assert Executed(plan, run)[i] == rest[i - 1];
        }
      }
    }
  }

  /** The chain stops early exactly when a call fails: then the last call made
      is the one that failed, with the error the chain returns; otherwise
      every planned call is made and succeeds. */
  lemma {:induction false} ExecutedEnd(plan: seq<Call>, run: Runner)
    ensures FirstFailure(plan, run).Some? ==>
      Executed(plan, run) != [] && Fails(run, Last(Executed(plan, run))) == FirstFailure(plan, run)
    ensures FirstFailure(plan, run).None? ==> Executed(plan, run) == plan
    ensures FirstFailure(plan, run).None? <==> forall i | 0 <= i < |plan| :: Fails(run, plan[i]).None?
  {
    if plan != [] && Fails(run, plan[0]).None? {
      ExecutedEnd(plan[1..], run);
      var rest := Executed(plan[1..], run);
      assert Executed(plan, run) == [plan[0]] + rest;
      forall i | 0 < i < |plan| ensures plan[i] == plan[1..][i - 1] {
      }
    }
  }

  /** One call ahead of the rest of a chain. */
  lemma ExecutedCons(c: Call, rest: seq<Call>, run: Runner)
    ensures Executed([c] + rest, run) == if Fails(run, c).Some? then [c] else [c] + Executed(rest, run)
    ensures FirstFailure([c] + rest, run) == if Fails(run, c).Some? then Fails(run, c) else FirstFailure(rest, run)
  {
    assert ([c] + rest)[1..] == rest;
  }

  /** Making the next call `c` of a chain, after the calls `done`. */
  lemma ExecutedStep(done: seq<Call>, c: Call, rest: seq<Call>, run: Runner)
    ensures Fails(run, c).Some? ==>
      done + Executed([c] + rest, run) == done + [c] && FirstFailure([c] + rest, run) == Fails(run, c)
    ensures Fails(run, c).None? ==>
      && done + Executed([c] + rest, run) == (done + [c]) + Executed(rest, run)
      && FirstFailure([c] + rest, run) == FirstFailure(rest, run)
  {
    ExecutedCons(c, rest, run);
  }

  /** Only planned calls are made. */
  lemma ExecutedMembers(plan: seq<Call>, run: Runner, c: Call)
    requires c in Executed(plan, run)
    ensures c in plan
  {
    ExecutedPrefix(plan, run);
    var k := |Executed(plan, run)|;
    assert plan == plan[..k] + plan[k..];
  }
}
