/** The `riot deploy` command (cmd/deploy.go). It deploys every application
    to the nodes its selectors pick, threading one lock through the
    deployments. A failure is collected and the loop moves on to the next
    host or application. Each success advances the lock and saves it. At the
    end the run reports every collected error. */
module DeployCommand {
  import opened Types
  import opened Locks
  import opened Environment
  import opened Applications
  import opened Effects
  import opened Deployment

  /** The deploy loops after some attempts: the current lock, the errors
      collected so far and the locks handed to `Save` so far, both in order. */
  datatype DeployProgress = DeployProgress(lock: RiotLock, errors: seq<Error>, saves: seq<RiotLock>)

  /** One deployment of an application to a node from a lock. The loops below
      are stated for any such attempt; the command uses `Deployer`. */
  type Attempt = (Application, Node, RiotLock) -> Result<RiotLock>

  /** The attempt the command makes: `Deploy` against `docker`. */
  function Deployer(docker: Docker): Attempt
  {
    (app, host, lock) => DeployOutcome(app, host, lock, docker)
  }

  /** Deploying `app` to each of `hosts` in turn, from `start`. */
  function DeployHosts(app: Application, hosts: seq<Node>, start: DeployProgress, attempt: Attempt): DeployProgress
  {
    if hosts == [] then start
    else
      var p := DeployHosts(app, Init(hosts), start, attempt);
      match attempt(app, Last(hosts), p.lock)
      case Err(e) => p.(errors := p.errors + [e])
      case Ok(l) => DeployProgress(l, p.errors, p.saves + [l])
  }

  /** Placing and deploying each of `apps` in turn, from `start`. A placement
      error is collected and its application skipped. */
  function DeployApps(apps: seq<Application>, nodes: seq<Node>, start: DeployProgress, attempt: Attempt): DeployProgress
  {
    if apps == [] then start
    else
      var p := DeployApps(Init(apps), nodes, start, attempt);
      match DeploymentTargets(Last(apps).deploymentSelector, nodes)
      case Err(e) => p.(errors := p.errors + [e])
      case Ok(hosts) => DeployHosts(Last(apps), hosts, p, attempt)
  }

  /** The report lines: each error's text followed by a newline, in order. */
  function Report(errors: seq<Error>): string
  {
    if errors == [] then "" else Report(Init(errors)) + ErrorText(Last(errors)) + "\n"
  }

  /** What a run does: the errors it collects, the locks it saves, and the
      message it exits with, if it fails. */
  datatype DeployRunResult = DeployRunResult(errors: seq<Error>, saves: seq<RiotLock>, fatal: Option<string>)

  /** `loaded` is the outcome of reading the lock from the project directory. */
  function DeployRunOutcome(env: Env, loaded: Result<RiotLock>, docker: Docker): DeployRunResult
  {
    match env.applications
    case Err(e) => DeployRunResult([], [], Some("Error while loading application descriptions" + ErrorText(e)))
    case Ok(apps) =>
      match loaded
      case Err(e) => DeployRunResult([], [], Some(ErrorText(e) + ". Please run riot build."))
      case Ok(lock) =>
        var p := DeployApps(apps, env.nodes, DeployProgress(lock, [], []), Deployer(docker));
        DeployRunResult(p.errors, p.saves,
          if p.errors == [] then None else Some("Error while deploying project: " + Report(p.errors)))
  }

  /** The loop that joins the collected errors into the report. */
  method ReportErrors(errors: seq<Error>) returns (errorMessages: string)
    ensures errorMessages == Report(errors)
  {
    errorMessages := "";
    for i := 0 to |errors|
      invariant errorMessages == Report(errors[..i])
    {
      PrefixStep(errors, i);
      errorMessages := errorMessages + ErrorText(errors[i]) + "\n";
    }
    PrefixWhole(errors);
  }

  /** `deployCmd.Run` after the environment is loaded. Saving is not
      modelled beyond the lock handed to it, since its result is ignored. */
  method DeployRun(env: Env, loaded: Result<RiotLock>, docker: Docker)
    returns (errors: seq<Error>, saves: seq<RiotLock>, fatal: Option<string>)
    ensures DeployRunResult(errors, saves, fatal) == DeployRunOutcome(env, loaded, docker)
  {
    var applications := env.applications;
    if applications.Err? {
      return [], [], Some("Error while loading application descriptions" + ErrorText(applications.error));
    }
    var apps := applications.value;
    if loaded.Err? {
      return [], [], Some(ErrorText(loaded.error) + ". Please run riot build.");
    }
    var lock := loaded.value;
    ghost var start := DeployProgress(lock, [], []);
    errors, saves := [], [];
    for i := 0 to |apps|
      invariant DeployApps(apps[..i], env.nodes, start, Deployer(docker)) == DeployProgress(lock, errors, saves)
    {
      PrefixStep(apps, i);
      var app := apps[i];
      var hosts := SelectDeploymentTargets(app, env);
      if hosts.Err? {
        errors := errors + [hosts.error];
        continue;
      }
      ghost var before := DeployProgress(lock, errors, saves);
      for j := 0 to |hosts.value|
        invariant DeployHosts(app, hosts.value[..j], before, Deployer(docker)) == DeployProgress(lock, errors, saves)
      {
        PrefixStep(hosts.value, j);
        var plock, calls := Deploy(app, hosts.value[j], lock, docker);
        if plock.Err? {
          errors := errors + [plock.error];
        } else {
          lock := plock.value;
          saves := saves + [lock];
        }
      }
      PrefixWhole(hosts.value);
    }
    PrefixWhole(apps);
    if |errors| > 0 {
      var errorMessages := ReportErrors(errors);
      fatal := Some("Error while deploying project: " + errorMessages);
    } else {
      fatal := None;
    }
  }

  // ---------------------------------------------------------------------------
  // What a run promises

  /** The number of deployments attempted: one per placed host, and one
      placement error for each application whose selectors are rejected. */
  function Attempts(apps: seq<Application>, nodes: seq<Node>): nat
  {
    if apps == [] then 0
    else
      var placed := DeploymentTargets(Last(apps).deploymentSelector, nodes);
      Attempts(Init(apps), nodes) + if placed.Err? then 1 else |placed.value|
  }

  /** `a` extends `b`. */
  predicate Extends<T(==)>(a: seq<T>, b: seq<T>)
  {
    |b| <= |a| && a[..|b|] == b
  }

  /** The host loop only appends: one error or one save per host. */
  lemma {:induction false} DeployHostsAppends(app: Application, hosts: seq<Node>, start: DeployProgress, attempt: Attempt)
    ensures var q := DeployHosts(app, hosts, start, attempt);
      && Extends(q.errors, start.errors) && Extends(q.saves, start.saves)
      && |q.errors| - |start.errors| + |q.saves| - |start.saves| == |hosts|
  {
    if hosts != [] {
      DeployHostsAppends(app, Init(hosts), start, attempt);
    }
  }

  /** After the host loop the lock is the one saved last, or the starting
      lock when nothing was saved. */
  lemma {:induction false} DeployHostsLock(app: Application, hosts: seq<Node>, start: DeployProgress, attempt: Attempt)
    ensures var q := DeployHosts(app, hosts, start, attempt);
      && (|q.saves| == |start.saves| ==> q.lock == start.lock)
      && (|q.saves| > |start.saves| ==> q.saves != [] && q.lock == Last(q.saves))
  {
    if hosts != [] {
      var p := DeployHosts(app, Init(hosts), start, attempt);
      DeployHostsLock(app, Init(hosts), start, attempt);
      DeployHostsAppends(app, Init(hosts), start, attempt);
      if |p.saves| == |start.saves| {
        assert p.saves == start.saves;
      }
    }
  }

  /** The host loop never changes the versions: neither the lock it ends
      with nor any lock it saves. */
  lemma {:induction false} DeployHostsVersions(app: Application, hosts: seq<Node>, start: DeployProgress, docker: Docker)
    ensures var q := DeployHosts(app, hosts, start, Deployer(docker));
      && q.lock.versions == start.lock.versions
      && forall k | |start.saves| <= k < |q.saves| :: q.saves[k].versions == start.lock.versions
  {
    if hosts != [] {
      var p := DeployHosts(app, Init(hosts), start, Deployer(docker));
      DeployHostsVersions(app, Init(hosts), start, docker);
      if DeployOutcome(app, Last(hosts), p.lock, docker).Ok? {
        DeploySuccessLock(app, Last(hosts), p.lock, docker);
      }
    }
  }

  /** The application loop only appends, as many errors and saves together
      as there are attempts. */
  lemma {:induction false} DeployAppsAppends(apps: seq<Application>, nodes: seq<Node>, start: DeployProgress, attempt: Attempt)
    ensures var q := DeployApps(apps, nodes, start, attempt);
      && Extends(q.errors, start.errors) && Extends(q.saves, start.saves)
      && |q.errors| - |start.errors| + |q.saves| - |start.saves| == Attempts(apps, nodes)
  {
    if apps != [] {
      var p := DeployApps(Init(apps), nodes, start, attempt);
      DeployAppsAppends(Init(apps), nodes, start, attempt);
      match DeploymentTargets(Last(apps).deploymentSelector, nodes)
      case Err(_) =>
      case Ok(hosts) =>
        DeployHostsAppends(Last(apps), hosts, p, attempt);
    }
  }

  /** After the application loop the lock is the one saved last, or the
      starting lock when nothing was saved. */
  lemma {:induction false} DeployAppsLock(apps: seq<Application>, nodes: seq<Node>, start: DeployProgress, attempt: Attempt)
    ensures var q := DeployApps(apps, nodes, start, attempt);
      && (|q.saves| == |start.saves| ==> q.lock == start.lock)
      && (|q.saves| > |start.saves| ==> q.saves != [] && q.lock == Last(q.saves))
  {
    if apps != [] {
      var p := DeployApps(Init(apps), nodes, start, attempt);
      DeployAppsLock(Init(apps), nodes, start, attempt);
      DeployAppsAppends(Init(apps), nodes, start, attempt);
      if |p.saves| == |start.saves| {
        assert p.saves == start.saves;
      }
      match DeploymentTargets(Last(apps).deploymentSelector, nodes)
      case Err(_) =>
      case Ok(hosts) =>
        var q := DeployHosts(Last(apps), hosts, p, attempt);
        DeployHostsLock(Last(apps), hosts, p, attempt);
        DeployHostsAppends(Last(apps), hosts, p, attempt);
        if |q.saves| == |p.saves| {
          assert q.saves == p.saves;
        }
    }
  }

  /** The application loop never changes the versions: neither the lock it
      ends with nor any lock it saves. */
  lemma {:induction false} DeployAppsVersions(apps: seq<Application>, nodes: seq<Node>, start: DeployProgress, docker: Docker)
    ensures var q := DeployApps(apps, nodes, start, Deployer(docker));
      && q.lock.versions == start.lock.versions
      && forall k | |start.saves| <= k < |q.saves| :: q.saves[k].versions == start.lock.versions
  {
    if apps != [] {
      var p := DeployApps(Init(apps), nodes, start, Deployer(docker));
      DeployAppsVersions(Init(apps), nodes, start, docker);
      DeployAppsAppends(Init(apps), nodes, start, Deployer(docker));
      match DeploymentTargets(Last(apps).deploymentSelector, nodes)
      case Err(_) =>
      case Ok(hosts) =>
        DeployHostsVersions(Last(apps), hosts, p, docker);
        DeployHostsAppends(Last(apps), hosts, p, Deployer(docker));
    }
  }

  // ---------------------------------------------------------------------------
  // Which outcome adds which entry

  /** The lock a save was deployed from, for a loop that started from lock
      `first` after `base` saves: `first` for the first new save, otherwise
      the lock saved just before. */
  function PrevLock(first: RiotLock, saves: seq<RiotLock>, base: int, k: int): RiotLock
    requires 0 <= base <= k <= |saves|
  {
    if k == base then first else saves[k - 1]
  }

  /** `l` is the lock a successful deployment of `app` to one of `hosts` from
      lock `prev` returns. */
  predicate HostSaved(app: Application, hosts: seq<Node>, prev: RiotLock, l: RiotLock, attempt: Attempt)
  {
    exists h | h in hosts :: attempt(app, h, prev) == Ok(l)
  }

  /** `e` is the error a deployment of `app` to one of `hosts` from one of
      `locks` fails with. */
  predicate HostFailed(app: Application, hosts: seq<Node>, locks: seq<RiotLock>, e: Error, attempt: Attempt)
  {
    exists h, l | h in hosts && l in locks :: attempt(app, h, l) == Err(e)
  }

  /** The lock in force when `app` is deployed to `hosts[j]`. */
  function HostLock(app: Application, hosts: seq<Node>, start: DeployProgress, attempt: Attempt, j: int): RiotLock
    requires 0 <= j <= |hosts|
  {
    DeployHosts(app, hosts[..j], start, attempt).lock
  }

  /** A save made from `lock`, the lock in force, after saves that each came
      from an earlier host: every save came from some host. */
  lemma HostSavedSnoc(app: Application, hosts: seq<Node>, first: RiotLock, saves: seq<RiotLock>, base: int,
                      lock: RiotLock, l: RiotLock, attempt: Attempt)
    requires hosts != [] && 0 <= base <= |saves|
    requires |saves| == base ==> lock == first
    requires |saves| > base ==> saves != [] && lock == Last(saves)
    requires forall k {:trigger HostSaved(app, Init(hosts), PrevLock(first, saves, base, k), saves[k], attempt)} | base <= k < |saves| ::
      HostSaved(app, Init(hosts), PrevLock(first, saves, base, k), saves[k], attempt)
    requires attempt(app, Last(hosts), lock) == Ok(l)
    ensures forall k {:trigger HostSaved(app, hosts, PrevLock(first, saves + [l], base, k), (saves + [l])[k], attempt)}
      | base <= k < |saves + [l]| ::
      HostSaved(app, hosts, PrevLock(first, saves + [l], base, k), (saves + [l])[k], attempt)
  {
    forall k | base <= k < |saves + [l]|
      ensures HostSaved(app, hosts, PrevLock(first, saves + [l], base, k), (saves + [l])[k], attempt)
    {
      if k < |saves| {
        var prev := PrevLock(first, saves, base, k);
        assert HostSaved(app, Init(hosts), prev, saves[k], attempt);
        assert PrevLock(first, saves + [l], base, k) == prev;
        assert (saves + [l])[k] == saves[k];
        var h :| h in Init(hosts) && attempt(app, h, prev) == Ok(saves[k]);
        assert h in hosts;
        assert attempt(app, h, prev) == Ok((saves + [l])[k]);
      } else {
        if k == base {
          assert lock == first;
        } else {
          assert (saves + [l])[k - 1] == saves[|saves| - 1] == lock;
        }
        assert (saves + [l])[k] == l;
        assert Last(hosts) in hosts;
      }
    }
  }

  /** Every lock the host loop saves is what deploying `app` to one of the
      hosts from the lock before it returned. */
  lemma {:induction false} DeployHostsSaves(app: Application, hosts: seq<Node>, start: DeployProgress, attempt: Attempt)
    ensures var q := DeployHosts(app, hosts, start, attempt);
      forall k {:trigger HostSaved(app, hosts, PrevLock(start.lock, q.saves, |start.saves|, k), q.saves[k], attempt)}
        | |start.saves| <= k < |q.saves| ::
        HostSaved(app, hosts, PrevLock(start.lock, q.saves, |start.saves|, k), q.saves[k], attempt)
  {
    if hosts != [] {
      var p := DeployHosts(app, Init(hosts), start, attempt);
      DeployHostsSaves(app, Init(hosts), start, attempt);
      DeployHostsAppends(app, Init(hosts), start, attempt);
      DeployHostsLock(app, Init(hosts), start, attempt);
      var o := attempt(app, Last(hosts), p.lock);
      if o.Ok? {
        if |p.saves| == |start.saves| {
          assert p.saves == start.saves;
        }
        HostSavedSnoc(app, hosts, start.lock, p.saves, |start.saves|, p.lock, o.value, attempt);
      } else {
        forall k | |start.saves| <= k < |p.saves|
          ensures HostSaved(app, hosts, PrevLock(start.lock, p.saves, |start.saves|, k), p.saves[k], attempt)
        {
          assert HostSaved(app, Init(hosts), PrevLock(start.lock, p.saves, |start.saves|, k), p.saves[k], attempt);
          var h :| h in Init(hosts) && attempt(app, h, PrevLock(start.lock, p.saves, |start.saves|, k)) == Ok(p.saves[k]);
          assert h in hosts;
        }
      }
    }
  }

  /** Every error the host loop collects is what deploying `app` to one of the
      hosts, from the starting lock or one the loop saved, failed with. */
  lemma {:induction false} DeployHostsErrors(app: Application, hosts: seq<Node>, start: DeployProgress, attempt: Attempt)
    ensures var q := DeployHosts(app, hosts, start, attempt);
      forall k | |start.errors| <= k < |q.errors| :: HostFailed(app, hosts, [start.lock] + q.saves, q.errors[k], attempt)
  {
    if hosts != [] {
      var p := DeployHosts(app, Init(hosts), start, attempt);
      var q := DeployHosts(app, hosts, start, attempt);
      DeployHostsErrors(app, Init(hosts), start, attempt);
      DeployHostsAppends(app, Init(hosts), start, attempt);
      DeployHostsLock(app, Init(hosts), start, attempt);
      assert forall l | l in [start.lock] + p.saves :: l in [start.lock] + q.saves;
      assert p.lock in [start.lock] + q.saves;
      forall k | |start.errors| <= k < |q.errors|
        ensures HostFailed(app, hosts, [start.lock] + q.saves, q.errors[k], attempt)
      {
        if k < |p.errors| {
          assert q.errors[k] == p.errors[k];
          var h, l :| h in Init(hosts) && l in [start.lock] + p.saves
            && attempt(app, h, l) == Err(p.errors[k]);
          assert h in hosts;
        } else {
          assert Last(hosts) in hosts;
        }
      }
    }
  }

  /** Every deployment the host loop attempts leaves its mark: a failure its
      error, a success the lock it returns. */
  lemma {:induction false} DeployHostsOutcomes(app: Application, hosts: seq<Node>, start: DeployProgress, attempt: Attempt)
    ensures var q := DeployHosts(app, hosts, start, attempt);
      forall j | 0 <= j < |hosts| ::
        match attempt(app, hosts[j], HostLock(app, hosts, start, attempt, j))
        case Err(e) => e in q.errors
        case Ok(l) => l in q.saves
  {
    if hosts != [] {
      var p := DeployHosts(app, Init(hosts), start, attempt);
      var q := DeployHosts(app, hosts, start, attempt);
      DeployHostsOutcomes(app, Init(hosts), start, attempt);
      DeployHostsAppends(app, Init(hosts), start, attempt);
      assert forall e | e in p.errors :: e in q.errors;
      assert forall l | l in p.saves :: l in q.saves;
      forall j | 0 <= j < |hosts|
        ensures match attempt(app, hosts[j], HostLock(app, hosts, start, attempt, j))
          case Err(e) => e in q.errors
          case Ok(l) => l in q.saves
      {
        if j == |hosts| - 1 {
          assert hosts[..j] == Init(hosts);
        } else {
          assert hosts[..j] == Init(hosts)[..j] && hosts[j] == Init(hosts)[j];
          assert HostLock(app, hosts, start, attempt, j) == HostLock(app, Init(hosts), start, attempt, j);
        }
      }
    }
  }

  /** `a`, one of `apps`, is placed, and `h` is a host it is placed on. */
  predicate Attempted(apps: seq<Application>, nodes: seq<Node>, a: Application, h: Node)
  {
    && a in apps
    && DeploymentTargets(a.deploymentSelector, nodes).Ok?
    && h in DeploymentTargets(a.deploymentSelector, nodes).value
  }

  /** `l` is the lock a successful deployment of one of `apps` to a host it is
      placed on, from lock `prev`, returns. */
  ghost predicate AppSaved(apps: seq<Application>, nodes: seq<Node>, prev: RiotLock, l: RiotLock, attempt: Attempt)
  {
    exists a, h | Attempted(apps, nodes, a, h) :: attempt(a, h, prev) == Ok(l)
  }

  /** `e` is the error an application of `apps` cannot be placed with, or the
      error a deployment of one of them to a host it is placed on, from one
      of `locks`, fails with. */
  ghost predicate AppFailed(apps: seq<Application>, nodes: seq<Node>, locks: seq<RiotLock>, e: Error, attempt: Attempt)
  {
    || (exists a | a in apps :: DeploymentTargets(a.deploymentSelector, nodes) == Err(e))
    || (exists a, h, l | Attempted(apps, nodes, a, h) && l in locks :: attempt(a, h, l) == Err(e))
  }

  /** The lock in force when `apps[i]` is deployed to the `j`-th host it is
      placed on. */
  function AppLock(apps: seq<Application>, nodes: seq<Node>, start: DeployProgress, attempt: Attempt, i: int, j: int): RiotLock
    requires 0 <= i < |apps| && DeploymentTargets(apps[i].deploymentSelector, nodes).Ok?
    requires 0 <= j <= |DeploymentTargets(apps[i].deploymentSelector, nodes).value|
  {
    HostLock(apps[i], DeploymentTargets(apps[i].deploymentSelector, nodes).value,
             DeployApps(apps[..i], nodes, start, attempt), attempt, j)
  }

  /** Every lock the application loop saves is what deploying one of the
      applications to a host it is placed on, from the lock before, returned. */
  lemma {:induction false} DeployAppsSaves(apps: seq<Application>, nodes: seq<Node>, start: DeployProgress, attempt: Attempt)
    ensures var q := DeployApps(apps, nodes, start, attempt);
      forall k {:trigger AppSaved(apps, nodes, PrevLock(start.lock, q.saves, |start.saves|, k), q.saves[k], attempt)}
        | |start.saves| <= k < |q.saves| ::
        AppSaved(apps, nodes, PrevLock(start.lock, q.saves, |start.saves|, k), q.saves[k], attempt)
  {
    if apps != [] {
      var p := DeployApps(Init(apps), nodes, start, attempt);
      var q := DeployApps(apps, nodes, start, attempt);
      DeployAppsSaves(Init(apps), nodes, start, attempt);
      DeployAppsAppends(Init(apps), nodes, start, attempt);
      DeployAppsLock(Init(apps), nodes, start, attempt);
      if |p.saves| == |start.saves| {
        assert p.saves == start.saves;
      }
      assert Last(apps) in apps;
      match DeploymentTargets(Last(apps).deploymentSelector, nodes)
      case Err(_) =>
        forall k | |start.saves| <= k < |q.saves|
          ensures AppSaved(apps, nodes, PrevLock(start.lock, q.saves, |start.saves|, k), q.saves[k], attempt)
        {
          assert q.saves == p.saves;
          assert AppSaved(Init(apps), nodes, PrevLock(start.lock, p.saves, |start.saves|, k), p.saves[k], attempt);
          var a, h :| Attempted(Init(apps), nodes, a, h)
            && attempt(a, h, PrevLock(start.lock, p.saves, |start.saves|, k)) == Ok(p.saves[k]);
          assert Attempted(apps, nodes, a, h);
        }
      case Ok(hosts) =>
        DeployHostsSaves(Last(apps), hosts, p, attempt);
        DeployHostsAppends(Last(apps), hosts, p, attempt);
        forall k | |start.saves| <= k < |q.saves|
          ensures AppSaved(apps, nodes, PrevLock(start.lock, q.saves, |start.saves|, k), q.saves[k], attempt)
        {
          if k < |p.saves| {
            assert q.saves[k] == p.saves[k];
            assert PrevLock(start.lock, q.saves, |start.saves|, k) == PrevLock(start.lock, p.saves, |start.saves|, k);
            assert AppSaved(Init(apps), nodes, PrevLock(start.lock, p.saves, |start.saves|, k), p.saves[k], attempt);
            var a, h :| Attempted(Init(apps), nodes, a, h)
              && attempt(a, h, PrevLock(start.lock, p.saves, |start.saves|, k)) == Ok(p.saves[k]);
            assert Attempted(apps, nodes, a, h);
          } else {
            assert PrevLock(start.lock, q.saves, |start.saves|, k) == PrevLock(p.lock, q.saves, |p.saves|, k);
            assert HostSaved(Last(apps), hosts, PrevLock(p.lock, q.saves, |p.saves|, k), q.saves[k], attempt);
            var h :| h in hosts
              && attempt(Last(apps), h, PrevLock(p.lock, q.saves, |p.saves|, k)) == Ok(q.saves[k]);
            assert Attempted(apps, nodes, Last(apps), h);
          }
        }
    }
  }

  /** Every error the application loop collects is a placement error of one
      of the applications, or what deploying one of them to a host it is
      placed on, from the starting lock or one the loop saved, failed with. */
  lemma {:induction false} DeployAppsErrors(apps: seq<Application>, nodes: seq<Node>, start: DeployProgress, attempt: Attempt)
    ensures var q := DeployApps(apps, nodes, start, attempt);
      forall k | |start.errors| <= k < |q.errors| :: AppFailed(apps, nodes, [start.lock] + q.saves, q.errors[k], attempt)
  {
    if apps != [] {
      var p := DeployApps(Init(apps), nodes, start, attempt);
      var q := DeployApps(apps, nodes, start, attempt);
      DeployAppsErrors(Init(apps), nodes, start, attempt);
      DeployAppsAppends(Init(apps), nodes, start, attempt);
      DeployAppsLock(Init(apps), nodes, start, attempt);
      assert Last(apps) in apps;
      match DeploymentTargets(Last(apps).deploymentSelector, nodes)
      case Err(_) =>
        forall k | |start.errors| <= k < |q.errors|
          ensures AppFailed(apps, nodes, [start.lock] + q.saves, q.errors[k], attempt)
        {
          if k < |p.errors| {
            assert q.errors[k] == p.errors[k];
            EarlierFailure(apps, nodes, [start.lock] + p.saves, [start.lock] + q.saves, p.errors[k], attempt);
          }
        }
      case Ok(hosts) =>
        DeployHostsErrors(Last(apps), hosts, p, attempt);
        DeployHostsAppends(Last(apps), hosts, p, attempt);
        DeployHostsLock(Last(apps), hosts, p, attempt);
        assert forall l | l in [start.lock] + p.saves :: l in [start.lock] + q.saves;
        assert p.lock in [start.lock] + q.saves;
        forall k | |start.errors| <= k < |q.errors|
          ensures AppFailed(apps, nodes, [start.lock] + q.saves, q.errors[k], attempt)
        {
          if k < |p.errors| {
            assert q.errors[k] == p.errors[k];
            EarlierFailure(apps, nodes, [start.lock] + p.saves, [start.lock] + q.saves, p.errors[k], attempt);
          } else {
            var h, l :| h in hosts && l in [p.lock] + q.saves && attempt(Last(apps), h, l) == Err(q.errors[k]);
            assert Attempted(apps, nodes, Last(apps), h);
            assert l in [start.lock] + q.saves;
          }
        }
    }
  }

  /** A failure of the applications before the last, from one of `before`, is
      one of all the applications, from one of `after` when those include
      `before`. */
  lemma EarlierFailure(apps: seq<Application>, nodes: seq<Node>, before: seq<RiotLock>, after: seq<RiotLock>,
                       e: Error, attempt: Attempt)
    requires apps != [] && AppFailed(Init(apps), nodes, before, e, attempt)
    requires forall l | l in before :: l in after
    ensures AppFailed(apps, nodes, after, e, attempt)
  {
    if exists a | a in Init(apps) :: DeploymentTargets(a.deploymentSelector, nodes) == Err(e) {
      var a :| a in Init(apps) && DeploymentTargets(a.deploymentSelector, nodes) == Err(e);
      assert a in apps;
    } else {
      var a, h, l :| Attempted(Init(apps), nodes, a, h) && l in before && attempt(a, h, l) == Err(e);
      assert Attempted(apps, nodes, a, h);
    }
  }

  /** Every application the loop cannot place has its placement error
      collected. */
  lemma {:induction false} DeployAppsPlacements(apps: seq<Application>, nodes: seq<Node>, start: DeployProgress, attempt: Attempt)
    ensures var q := DeployApps(apps, nodes, start, attempt);
      forall i | 0 <= i < |apps| && DeploymentTargets(apps[i].deploymentSelector, nodes).Err? ::
        DeploymentTargets(apps[i].deploymentSelector, nodes).error in q.errors
  {
    if apps != [] {
      var p := DeployApps(Init(apps), nodes, start, attempt);
      var q := DeployApps(apps, nodes, start, attempt);
      DeployAppsPlacements(Init(apps), nodes, start, attempt);
      match DeploymentTargets(Last(apps).deploymentSelector, nodes)
      case Err(_) =>
      case Ok(hosts) =>
        DeployHostsAppends(Last(apps), hosts, p, attempt);
      assert forall e | e in p.errors :: e in q.errors;
      forall i | 0 <= i < |apps| - 1 ensures apps[i] == Init(apps)[i] {
      }
    }
  }

  /** Every deployment the application loop attempts leaves its mark: a
      failure its error, a success the lock it returns. */
  lemma {:induction false} DeployAppsOutcomes(apps: seq<Application>, nodes: seq<Node>, start: DeployProgress, attempt: Attempt)
    ensures var q := DeployApps(apps, nodes, start, attempt);
      forall i, j | 0 <= i < |apps| && DeploymentTargets(apps[i].deploymentSelector, nodes).Ok?
                    && 0 <= j < |DeploymentTargets(apps[i].deploymentSelector, nodes).value| ::
        match attempt(apps[i], DeploymentTargets(apps[i].deploymentSelector, nodes).value[j],
                            AppLock(apps, nodes, start, attempt, i, j))
        case Err(e) => e in q.errors
        case Ok(l) => l in q.saves
  {
    if apps != [] {
      var p := DeployApps(Init(apps), nodes, start, attempt);
      var q := DeployApps(apps, nodes, start, attempt);
      DeployAppsOutcomes(Init(apps), nodes, start, attempt);
      var last := |apps| - 1;
      assert apps[..last] == Init(apps);
      var placed := DeploymentTargets(Last(apps).deploymentSelector, nodes);
      if placed.Ok? {
        DeployHostsAppends(Last(apps), placed.value, p, attempt);
        DeployHostsOutcomes(Last(apps), placed.value, p, attempt);
      }
      assert forall e | e in p.errors :: e in q.errors;
      assert forall l | l in p.saves :: l in q.saves;
      forall i, j | 0 <= i < |apps| && DeploymentTargets(apps[i].deploymentSelector, nodes).Ok?
                    && 0 <= j < |DeploymentTargets(apps[i].deploymentSelector, nodes).value|
        ensures match attempt(apps[i], DeploymentTargets(apps[i].deploymentSelector, nodes).value[j],
                              AppLock(apps, nodes, start, attempt, i, j))
          case Err(e) => e in q.errors
          case Ok(l) => l in q.saves
      {
        if i < last {
          assert apps[i] == Init(apps)[i] && apps[..i] == Init(apps)[..i];
          assert AppLock(apps, nodes, start, attempt, i, j) == AppLock(Init(apps), nodes, start, attempt, i, j);
        } else {
          assert AppLock(apps, nodes, start, attempt, i, j) == HostLock(Last(apps), placed.value, p, attempt, j);
        }
      }
    }
  }

  /** Each application is placed on at most one node, so there are at most
      as many attempts as applications. */
  lemma {:induction false} AttemptsAtMostApps(apps: seq<Application>, nodes: seq<Node>)
    ensures Attempts(apps, nodes) <= |apps|
  {
    if apps != [] {
      AttemptsAtMostApps(Init(apps), nodes);
      TargetsAtMostOne(Last(apps).deploymentSelector, nodes);
    }
  }

  /** The report of two runs of errors is the report of the first followed by
      that of the second. */
  lemma {:induction false} ReportAppend(a: seq<Error>, b: seq<Error>)
    ensures Report(a + b) == Report(a) + Report(b)
  {
    if b != [] {
      ReportAppend(a, Init(b));
      AppendInitLast(a, b);
      var text := ErrorText(Last(b));
      AppendAssoc(Report(a), Report(Init(b)), text);
      AppendAssoc(Report(a), Report(Init(b)) + text, "\n");
      assert Report(a + b) == Report(a + Init(b)) + text + "\n";
    } else {
      assert a + b == a;
    }
  }

  /** Every error contributes at least its line break, so the report is empty
      exactly when there is no error. */
  lemma {:induction false} ReportLength(errors: seq<Error>)
    ensures |Report(errors)| >= |errors|
    ensures Report(errors) == "" <==> errors == []
  {
    if errors != [] {
      ReportLength(Init(errors));
    }
  }

  /** A run aborts before any deployment exactly when the applications or the
      lock cannot be loaded: it then collects no errors and saves nothing. */
  lemma DeployRunAborts(env: Env, loaded: Result<RiotLock>, docker: Docker)
    ensures var out := DeployRunOutcome(env, loaded, docker);
      (out.fatal.Some? && out.errors == []) <==> (env.applications.Err? || loaded.Err?)
    ensures var out := DeployRunOutcome(env, loaded, docker);
      (env.applications.Err? || loaded.Err?) ==> out.saves == []
  {
  }

  /** With both loaded, a run collects one error or one save per attempt, at
      most one per application. It fails exactly when some error was
      collected, and its message lists every error in collection order. Every
      saved lock keeps the loaded versions, and the last one saved is the
      lock the run ends with. */
  lemma DeployRunCollects(env: Env, loaded: Result<RiotLock>, docker: Docker)
    requires env.applications.Ok? && loaded.Ok?
    ensures var out := DeployRunOutcome(env, loaded, docker);
      var apps := env.applications.value;
      && |out.errors| + |out.saves| == Attempts(apps, env.nodes) <= |apps|
      && (out.fatal.Some? <==> out.errors != [])
      && (out.fatal.Some? ==> out.fatal.value == "Error while deploying project: " + Report(out.errors))
      && (forall k | 0 <= k < |out.saves| :: out.saves[k].versions == loaded.value.versions)
      && (out.saves != [] ==>
            Last(out.saves) == DeployApps(apps, env.nodes, DeployProgress(loaded.value, [], []), Deployer(docker)).lock)
  {
    var apps := env.applications.value;
    var start := DeployProgress(loaded.value, [], []);
    DeployAppsAppends(apps, env.nodes, start, Deployer(docker));
    DeployAppsLock(apps, env.nodes, start, Deployer(docker));
    DeployAppsVersions(apps, env.nodes, start, docker);
    AttemptsAtMostApps(apps, env.nodes);
  }

  /** With the applications and the lock loaded, every entry of the run comes
      from a deployment it attempted, and every attempt leaves one: the `k`-th
      save is what deploying a placed application to one of its hosts returned
      from the lock loaded (for the first) or saved just before; every error
      is a placement error or what such a deployment, from the loaded lock or a
      saved one, failed with; every placement error is collected; and every
      deployment attempted from the lock then in force adds its error or the
      lock it returns. */
  lemma DeployRunEntries(env: Env, loaded: Result<RiotLock>, docker: Docker)
    requires env.applications.Ok? && loaded.Ok?
    ensures var out := DeployRunOutcome(env, loaded, docker);
      forall k {:trigger AppSaved(env.applications.value, env.nodes, PrevLock(loaded.value, out.saves, 0, k), out.saves[k], Deployer(docker))}
        | 0 <= k < |out.saves| ::
        AppSaved(env.applications.value, env.nodes, PrevLock(loaded.value, out.saves, 0, k), out.saves[k], Deployer(docker))
    ensures var out := DeployRunOutcome(env, loaded, docker);
      forall k | 0 <= k < |out.errors| ::
        AppFailed(env.applications.value, env.nodes, [loaded.value] + out.saves, out.errors[k], Deployer(docker))
    ensures var out := DeployRunOutcome(env, loaded, docker);
      var apps := env.applications.value;
      forall i | 0 <= i < |apps| && DeploymentTargets(apps[i].deploymentSelector, env.nodes).Err? ::
        DeploymentTargets(apps[i].deploymentSelector, env.nodes).error in out.errors
    ensures var out := DeployRunOutcome(env, loaded, docker);
      var apps := env.applications.value;
      forall i, j | 0 <= i < |apps| && DeploymentTargets(apps[i].deploymentSelector, env.nodes).Ok?
                    && 0 <= j < |DeploymentTargets(apps[i].deploymentSelector, env.nodes).value| ::
        match DeployOutcome(apps[i], DeploymentTargets(apps[i].deploymentSelector, env.nodes).value[j],
                            AppLock(apps, env.nodes, DeployProgress(loaded.value, [], []), Deployer(docker), i, j), docker)
        case Err(e) => e in out.errors
        case Ok(l) => l in out.saves
  {
    var apps := env.applications.value;
    var start := DeployProgress(loaded.value, [], []);
    DeployAppsSaves(apps, env.nodes, start, Deployer(docker));
    DeployAppsErrors(apps, env.nodes, start, Deployer(docker));
    DeployAppsPlacements(apps, env.nodes, start, Deployer(docker));
    DeployAppsOutcomes(apps, env.nodes, start, Deployer(docker));
  }
}
