/** Deploying one application to one node (pkg/projectlib/deployment.go): a
    chain of Docker engine calls with an early return on every failure, ending
    in a lock that records the container just started. */
module Deployment {
  import opened Types
  import opened Locks
  import opened Effects

  /** The calls a deployment plans, in order: connect to the node's engine;
      then, when the lock has an image for the application, pull it, stop the
      container the lock records for this node (if any), create a container
      from the image and start the container just created. */
  function DeployPlan(app: Application, node: Node, lock: RiotLock, docker: Docker): seq<Call>
  {
    [Connect(node)] + AfterConnect(app, node, lock, docker)
  }

  /** The calls planned once connected. */
  function AfterConnect(app: Application, node: Node, lock: RiotLock, docker: Docker): seq<Call>
  {
    if app.name !in lock.versions then []
    else
      var image := lock.versions[app.name];
      [Pull(node, image)] + AfterPull(node, image, GetDeployment(lock, app.name, node.name), docker)
  }

  /** The calls planned after the pull, given the container recorded. */
  function AfterPull(node: Node, image: string, recorded: Option<string>, docker: Docker): seq<Call>
  {
    match recorded
    case Some(id) => [Stop(node, id)] + Replace(node, image, docker)
    case None => Replace(node, image, docker)
  }

  /** Creating a container from `image` and starting the one created. */
  function Replace(node: Node, image: string, docker: Docker): seq<Call>
  {
    [Create(node, image)] + Started(node, docker.create(node, image))
  }

  /** Starting the container that was created, if one was. */
  function Started(node: Node, created: Result<string>): seq<Call>
  {
    match created
    case Ok(id) => [Start(node, id)]
    case Err(_) => []
  }

  /** What a deployment returns: the error of the first call that fails; else
      the missing lock entry; else the lock with the new container recorded. */
  function DeployOutcome(app: Application, node: Node, lock: RiotLock, docker: Docker): Result<RiotLock>
  {
    match FirstFailure(DeployPlan(app, node, lock, docker), Engine(docker))
    case Some(e) => Err(e)
    case None =>
      if app.name !in lock.versions then Err(NoLockEntry(app.name))
      else Recorded(app, node, lock, lock.versions[app.name], docker)
  }

  /** The lock recording the container created from `image`. */
  function Recorded(app: Application, node: Node, lock: RiotLock, image: string, docker: Docker): Result<RiotLock>
  {
    match docker.create(node, image)
    case Ok(id) => Ok(AddDeployment(lock, app.name, node.name, id))
    case Err(e) => Err(e)
  }

  /** The result a chain ends in, given its first failure. */
  function DeployEnding(failure: Option<Error>, success: Result<RiotLock>): Result<RiotLock>
  {
    match failure
    case Some(e) => Err(e)
    case None => success
  }

  // The deployment read step by step, as the source makes its calls: after
  // the calls `done`, each stage gives the result and all the calls made.

  ghost function DeploySteps(app: Application, node: Node, lock: RiotLock, docker: Docker): (Result<RiotLock>, seq<Call>)
  {
    var connected := [] + [Connect(node)];
    if docker.connect(node).Some? then (Err(docker.connect(node).value), connected)
    else if app.name !in lock.versions then (Err(NoLockEntry(app.name)), connected)
    else PullSteps(app, node, lock, lock.versions[app.name], docker, connected)
  }

  ghost function PullSteps(app: Application, node: Node, lock: RiotLock, image: string, docker: Docker, done: seq<Call>): (Result<RiotLock>, seq<Call>)
  {
    var pulled := done + [Pull(node, image)];
    if docker.pull(node, image).Some? then (Err(docker.pull(node, image).value), pulled)
    else StopSteps(app, node, lock, image, docker, pulled)
  }

  ghost function StopSteps(app: Application, node: Node, lock: RiotLock, image: string, docker: Docker, done: seq<Call>): (Result<RiotLock>, seq<Call>)
  {
    match GetDeployment(lock, app.name, node.name)
    case None => CreateSteps(app, node, lock, image, docker, done)
    case Some(id) =>
      var stopped := done + [Stop(node, id)];
      if docker.stop(node, id).Some? then (Err(docker.stop(node, id).value), stopped)
      else CreateSteps(app, node, lock, image, docker, stopped)
  }

  ghost function CreateSteps(app: Application, node: Node, lock: RiotLock, image: string, docker: Docker, done: seq<Call>): (Result<RiotLock>, seq<Call>)
  {
    var created := done + [Create(node, image)];
    match docker.create(node, image)
    case Err(e) => (Err(e), created)
    case Ok(id) =>
      var started := created + [Start(node, id)];
      if docker.start(node, id).Some? then (Err(docker.start(node, id).value), started)
      else (Ok(AddDeployment(lock, app.name, node.name, id)), started)
  }

  lemma CreateStepsChain(app: Application, node: Node, lock: RiotLock, image: string, docker: Docker, done: seq<Call>)
    ensures CreateSteps(app, node, lock, image, docker, done).1 == done + Executed(Replace(node, image, docker), Engine(docker))
    ensures CreateSteps(app, node, lock, image, docker, done).0 ==
      DeployEnding(FirstFailure(Replace(node, image, docker), Engine(docker)), Recorded(app, node, lock, image, docker))
  {
    var created := docker.create(node, image);
    ExecutedStep(done, Create(node, image), Started(node, created), Engine(docker));
    if created.Ok? {
      ExecutedStep(done + [Create(node, image)], Start(node, created.value), [], Engine(docker));
      assert Started(node, created) == [Start(node, created.value)] + [];
    }
  }

  lemma StopStepsChain(app: Application, node: Node, lock: RiotLock, image: string, docker: Docker, done: seq<Call>)
    ensures StopSteps(app, node, lock, image, docker, done).1 ==
      done + Executed(AfterPull(node, image, GetDeployment(lock, app.name, node.name), docker), Engine(docker))
    ensures StopSteps(app, node, lock, image, docker, done).0 ==
      DeployEnding(FirstFailure(AfterPull(node, image, GetDeployment(lock, app.name, node.name), docker), Engine(docker)),
             Recorded(app, node, lock, image, docker))
  {
    var recorded := GetDeployment(lock, app.name, node.name);
    if recorded.Some? {
      ExecutedStep(done, Stop(node, recorded.value), Replace(node, image, docker), Engine(docker));
      CreateStepsChain(app, node, lock, image, docker, done + [Stop(node, recorded.value)]);
    } else {
      CreateStepsChain(app, node, lock, image, docker, done);
    }
  }

  lemma PullStepsChain(app: Application, node: Node, lock: RiotLock, image: string, docker: Docker, done: seq<Call>)
    ensures PullSteps(app, node, lock, image, docker, done).1 ==
      done + Executed([Pull(node, image)] + AfterPull(node, image, GetDeployment(lock, app.name, node.name), docker), Engine(docker))
    ensures PullSteps(app, node, lock, image, docker, done).0 ==
      DeployEnding(FirstFailure([Pull(node, image)] + AfterPull(node, image, GetDeployment(lock, app.name, node.name), docker), Engine(docker)),
             Recorded(app, node, lock, image, docker))
  {
    var after := AfterPull(node, image, GetDeployment(lock, app.name, node.name), docker);
    ExecutedStep(done, Pull(node, image), after, Engine(docker));
    StopStepsChain(app, node, lock, image, docker, done + [Pull(node, image)]);
  }

  /** Read step by step, a deployment is the chain of its planned calls. */
  lemma DeployStepsChain(app: Application, node: Node, lock: RiotLock, docker: Docker)
    ensures DeploySteps(app, node, lock, docker).1 == Executed(DeployPlan(app, node, lock, docker), Engine(docker))
    ensures DeploySteps(app, node, lock, docker).0 == DeployOutcome(app, node, lock, docker)
  {
    var plan := DeployPlan(app, node, lock, docker);
    ExecutedStep([], Connect(node), AfterConnect(app, node, lock, docker), Engine(docker));
    assert [] + Executed(plan, Engine(docker)) == Executed(plan, Engine(docker));
    if app.name in lock.versions {
      PullStepsChain(app, node, lock, lock.versions[app.name], docker, [] + [Connect(node)]);
    }
  }

  /** `Application.Deploy`: the calls it makes, in order, and the lock it
      returns. A nil lock is an `Err`. */
  method Deploy(app: Application, node: Node, lock: RiotLock, docker: Docker)
    returns (r: Result<RiotLock>, calls: seq<Call>)
    ensures calls == Executed(DeployPlan(app, node, lock, docker), Engine(docker))
    ensures r == DeployOutcome(app, node, lock, docker)
    ensures app.name !in lock.versions ==> r.Err? && calls == [Connect(node)]
  {
    DeployStepsChain(app, node, lock, docker);
    calls := [] + [Connect(node)];
    var err := docker.connect(node);
    if err.Some? {
      return Err(err.value), calls;
    }
    if app.name !in lock.versions {
      return Err(NoLockEntry(app.name)), calls;
    }
    var imageName := lock.versions[app.name];
    calls := calls + [Pull(node, imageName)];
    err := docker.pull(node, imageName);
    if err.Some? {
      return Err(err.value), calls;
    }
    var recorded := GetDeployment(lock, app.name, node.name);
    if recorded.Some? {
      calls := calls + [Stop(node, recorded.value)];
      err := docker.stop(node, recorded.value);
      if err.Some? {
        return Err(err.value), calls;
      }
    }
    calls := calls + [Create(node, imageName)];
    var resp := docker.create(node, imageName);
    if resp.Err? {
      return Err(resp.error), calls;
    }
    calls := calls + [Start(node, resp.value)];
    err := docker.start(node, resp.value);
    if err.Some? {
      return Err(err.value), calls;
    }
    var updated := AddDeployment(lock, app.name, node.name, resp.value);
    return Ok(updated), calls;
  }

  /** The position of a step in the deployment order. */
  function Rank(c: Call): int
  {
    match c
    case Connect(_) => 0
    case Pull(_, _) => 1
    case Stop(_, _) => 2
    case Create(_, _) => 3
    case Start(_, _) => 4
    case _ => 5
  }

  /** The steps are planned in the order connect, pull, stop, create, start,
      each at most once. */
  lemma DeployOrder(app: Application, node: Node, lock: RiotLock, docker: Docker)
    ensures forall i, j | 0 <= i < j < |DeployPlan(app, node, lock, docker)| ::
      Rank(DeployPlan(app, node, lock, docker)[i]) < Rank(DeployPlan(app, node, lock, docker)[j])
  {
  }

  /** Once the pull has succeeded, the prior container is stopped exactly when
      the lock records one for this application and node, and it is that one. */
  lemma DeployStopIffRecorded(app: Application, node: Node, lock: RiotLock, docker: Docker, id: string)
    requires app.name in lock.versions
    requires docker.connect(node).None? && docker.pull(node, lock.versions[app.name]).None?
    ensures Stop(node, id) in Executed(DeployPlan(app, node, lock, docker), Engine(docker))
      <==> GetDeployment(lock, app.name, node.name) == Some(id)
  {
    var f := Engine(docker);
    var image := lock.versions[app.name];
    var recorded := GetDeployment(lock, app.name, node.name);
    var after := AfterPull(node, image, recorded, docker);
    ExecutedCons(Connect(node), [Pull(node, image)] + after, f);
    ExecutedCons(Pull(node, image), after, f);
    var done := Executed(after, f);
    assert Executed(DeployPlan(app, node, lock, docker), f) == [Connect(node)] + ([Pull(node, image)] + done);
    var replace := Replace(node, image, docker);
    NoStopInReplace(node, image, docker, id);
    if recorded.Some? {
      ExecutedCons(Stop(node, recorded.value), replace, f);
    }
  }

  /** Replacing the container stops nothing. */
  lemma NoStopInReplace(node: Node, image: string, docker: Docker, id: string)
    ensures Stop(node, id) !in Executed(Replace(node, image, docker), Engine(docker))
  {
    var replace := Replace(node, image, docker);
    ExecutedPrefix(replace, Engine(docker));
    assert forall c | c in replace :: !c.Stop?;
  }

  /** A deployment succeeds exactly when the lock has an image for the
      application and every planned call is made and succeeds. */
  lemma DeploySucceeds(app: Application, node: Node, lock: RiotLock, docker: Docker)
    ensures DeployOutcome(app, node, lock, docker).Ok? <==>
      && app.name in lock.versions
      && Executed(DeployPlan(app, node, lock, docker), Engine(docker)) == DeployPlan(app, node, lock, docker)
      && forall i | 0 <= i < |DeployPlan(app, node, lock, docker)| ::
           EngineFailure(docker, DeployPlan(app, node, lock, docker)[i]).None?
  {
    var plan := DeployPlan(app, node, lock, docker);
    ExecutedEnd(plan, Engine(docker));
    if app.name in lock.versions && FirstFailure(plan, Engine(docker)).None? {
      var image := lock.versions[app.name];
      CreatePlanned(app, node, lock, docker);
      assert EngineFailure(docker, Create(node, image)).None?;
    }
  }

  /** A failed deployment ends with the call that failed, unless it ended for
      want of a lock entry, in which case only the connection was made. */
  lemma DeployFails(app: Application, node: Node, lock: RiotLock, docker: Docker)
    requires DeployOutcome(app, node, lock, docker).Err?
    ensures var calls := Executed(DeployPlan(app, node, lock, docker), Engine(docker));
      || (calls != [] && EngineFailure(docker, Last(calls)) == Some(DeployOutcome(app, node, lock, docker).error))
      || (DeployOutcome(app, node, lock, docker).error == NoLockEntry(app.name) && calls == [Connect(node)])
  {
    var plan := DeployPlan(app, node, lock, docker);
    ExecutedEnd(plan, Engine(docker));
    if app.name in lock.versions && FirstFailure(plan, Engine(docker)).None? {
      CreatePlanned(app, node, lock, docker);
      assert false;
    }
  }

  /** With a lock entry, the plan creates a container from the locked image. */
  lemma CreatePlanned(app: Application, node: Node, lock: RiotLock, docker: Docker)
    requires app.name in lock.versions
    ensures exists i | 0 <= i < |DeployPlan(app, node, lock, docker)| ::
      DeployPlan(app, node, lock, docker)[i] == Create(node, lock.versions[app.name])
  {
    var image := lock.versions[app.name];
    var recorded := GetDeployment(lock, app.name, node.name);
    var plan := DeployPlan(app, node, lock, docker);
    var k := if recorded.Some? then 3 else 2;
    assert plan[k] == Create(node, image);
  }

  /** The image pulled and the image the container is created from are both
      the one the lock records for the application. */
  lemma DeployImages(app: Application, node: Node, lock: RiotLock, docker: Docker)
    ensures forall c | c in Executed(DeployPlan(app, node, lock, docker), Engine(docker)) && (c.Pull? || c.Create?) ::
      app.name in lock.versions && c.image == lock.versions[app.name]
  {
    var plan := DeployPlan(app, node, lock, docker);
    forall c | c in Executed(plan, Engine(docker)) && (c.Pull? || c.Create?)
      ensures app.name in lock.versions && c.image == lock.versions[app.name]
    {
      ExecutedMembers(plan, Engine(docker), c);
      PlannedImage(app, node, lock, docker, c);
    }
  }

  lemma PlannedImage(app: Application, node: Node, lock: RiotLock, docker: Docker, c: Call)
    requires c in DeployPlan(app, node, lock, docker) && (c.Pull? || c.Create?)
    ensures app.name in lock.versions && c.image == lock.versions[app.name]
  {
    if app.name in lock.versions {
      var image := lock.versions[app.name];
      var recorded := GetDeployment(lock, app.name, node.name);
      assert c in [Pull(node, image)] + AfterPull(node, image, recorded, docker);
      if c != Pull(node, image) {
        assert c in Replace(node, image, docker);
      }
    }
  }

  /** A successful deployment returns the lock that records the container
      started last, for this application and node only, with the versions
      unchanged. */
  lemma DeploySuccessLock(app: Application, node: Node, lock: RiotLock, docker: Docker)
    requires DeployOutcome(app, node, lock, docker).Ok?
    ensures var l := DeployOutcome(app, node, lock, docker).value;
      var calls := Executed(DeployPlan(app, node, lock, docker), Engine(docker));
      && calls != [] && Last(calls).Start? && Last(calls).node == node
      && GetDeployment(l, app.name, node.name) == Some(Last(calls).id)
      && l.versions == lock.versions
      && forall a, n | (a, n) != (app.name, node.name) :: GetDeployment(l, a, n) == GetDeployment(lock, a, n)
  {
    var plan := DeployPlan(app, node, lock, docker);
    ExecutedEnd(plan, Engine(docker));
    var image := lock.versions[app.name];
    var id := docker.create(node, image).value;
    var before := [Connect(node), Pull(node, image)]
      + (if GetDeployment(lock, app.name, node.name).Some? then [Stop(node, GetDeployment(lock, app.name, node.name).value)] else [])
      + [Create(node, image)];
    assert plan == before + [Start(node, id)];
  }
}
