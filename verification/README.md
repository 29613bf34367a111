# riot, modelled in Dafny

riot deploys the applications of a project, packaged as Docker containers,
to a fleet of nodes. An *environment* lists the nodes (name, host, labels)
and the image registry. Each *application* names the nodes it runs on with
*deployment selectors*: `#name` picks a node by name, and `.label` picks the
nodes carrying a label. The *lock* (`riot.lock`) records the image last
built for each application. It also records the container last started for
each (application, node) pair.

This project models the core of riot and proves properties of that model:

- **Selector resolution** (`Environment`, `Applications`): `SelectNodes`
  resolves one selector, and `SelectDeploymentTargets` places an
  application.
- **Static validation** (`Validation`): duplicate node names, and for every
  node the port bindings of the applications placed on it.
- **One deployment** (`Deployment`): connect, look up the version, pull,
  stop the recorded container, create, start and record.
- **One build** (`Builds`): the chain of calls that builds, tags and pushes
  an application's image, or the configured image when there is no
  Dockerfile.
- **The two commands**: `riot build` (`BuildCommand`) and `riot deploy`
  (`DeployCommand`). The deploy loops are stated for any function from an
  application, a node and a lock to an outcome. The command's function is
  `Deployer`, which deploys against the given Docker outcomes.

Some actions are outside the model: the Docker engine, the filesystem, the
registry credentials and the version-token generator. Each is a fixed
function from a call's arguments to its outcome (`Effects.Docker`,
`Effects.Workspace`). Every combination of successes and failures is
therefore an input of the model. `Deploy` and `Build` return the calls they
make as a trace. So the order of the steps, and the short-circuit on the
first failure, are stated about real results.

Three decisions shape the model:

- **Go map iteration.** Validation walks two Go maps, whose iteration order
  is unspecified. `Types.EnumerateMap` picks the keys in an arbitrary order
  and returns the listing it used. Every property of validation is proved
  for any listing.
- **Placement as written.** `SelectDeploymentTargets`
  (pkg/projectlib/applications.go:67-105) leaves its outer loop after the
  first node it picks (lines 99-101). An application is therefore placed on
  at most one node, chosen by the first (node, selector) pair, in node order,
  that does not skip. It is not placed on every node its selectors match. A
  selector that matches no node raises no error; the result is then empty.
- **Saving after a build.** `riot build` (cmd/build.go:63-79) builds every
  application first and stops at the first failure. Only then does it save
  one new lock, holding the image of each application.

Files and modules: `types.dfy` (Types), `riotlock.dfy` (Locks),
`effects.dfy` (Effects), `environment.dfy` (Environment),
`applications.dfy` (Applications), `validation.dfy` (Validation),
`deployment.dfy` (Deployment), `build.dfy` (Builds),
`build_cmd.dfy` (BuildCommand) and `deploy_cmd.dfy` (DeployCommand).

## Model

| member | source | states |
|---|---|---|
| Types.EnumerateMap | pkg/projectlib/validation.go:94 | Returns a listing of the map's entries, each key exactly once. Nothing fixes the order, which Go randomises. |
| Types.ListsAll | pkg/projectlib/validation.go:97 | A complete listing of a map visits every key once and is as long as the map. |
| Types.ListsSum | pkg/projectlib/validation.go:94-120 | Summed along any listing of a map, the values give the same total. |
| Types.ErrorText | pkg/projectlib/environment.go:99-101 | An error handed back by a collaborator is reported with its own text. |
| Types.ErrorTextNames | pkg/projectlib/applications.go:95 | Each error the core raises names what it is about: the malformed selector, the application not found, or the application without a lock entry. |
| Types.ErrorTextDistinct | pkg/projectlib/deployment.go:43 | Distinct errors raised by the core have distinct texts, so a report tells them apart. |
| Locks.GetDeployment | pkg/projectlib/deployment.go:52 | Finds a container exactly when the lock records the (application, node) pair, and returns the recorded id. |
| Locks.AddDeployment | pkg/projectlib/deployment.go:72 | Records the id for the pair and replaces any earlier record. The versions and every other pair are kept. |
| Effects.ExecutedPrefix | pkg/projectlib/deployment.go:36-70 | The calls made are a prefix of the planned calls, and every call made except the last succeeded. |
| Effects.ExecutedEnd | pkg/projectlib/build.go:45-111 | A chain of calls with early returns stops early exactly when a call fails. The last call made is then the one that failed, with the error returned. Otherwise every planned call is made and succeeds. |
| Effects.ExecutedMembers | pkg/projectlib/deployment.go:34-75 | Only planned calls are made. |
| Environment.GetRegistry | pkg/projectlib/environment.go:85-87 | Returns the stored registry unchanged. |
| Environment.GetNodes | pkg/projectlib/environment.go:90-92 | Returns the stored nodes unchanged. |
| Environment.GetBaseDir | pkg/projectlib/environment.go:94-96 | Returns the stored base directory unchanged. |
| Environment.LoadedApplications | pkg/projectlib/environment.go:107-114 | Loading the matched descriptors succeeds exactly when every one loads. It then yields one application per file, in order. Otherwise it fails with the error of the first file that does not load. |
| Environment.GetApplications | pkg/projectlib/environment.go:98-115 | A failed glob is passed on. Otherwise the loop over the matched files returns `LoadedApplications`. |
| Environment.ContainsLabel | pkg/projectlib/environment.go:180-186 | The label search finds the label exactly when the node carries it. |
| Environment.SelectNodes | pkg/projectlib/environment.go:169-196 | **`#X`:** returns at most one node, the first named X, and nothing exactly when no node has that name. **`.L`:** returns exactly the nodes carrying L, in node order. **Any other selector:** fails when there is a node and returns nothing when there is none. Every result is a subsequence of the nodes. |
| Environment.WithLabelMembers | pkg/projectlib/environment.go:178-190 | A node is picked by `.L` exactly when it is one of the nodes and carries L. |
| Environment.WithLabelIsSubsequence | pkg/projectlib/environment.go:171-190 | The nodes picked by a label keep their original order. |
| Environment.GetApplication | pkg/projectlib/environment.go:117-138 | Returns the first application of exactly that name, or a not-found error when none has it. A failure to list the applications is passed on. The result equals `LookupApplication`. |
| Environment.FindAppFirst | pkg/projectlib/environment.go:124-130 | The lookup finds the first application of the name, and finds none exactly when no application has it. |
| Environment.LookupApplicationNamed | pkg/projectlib/environment.go:125-126 | A found application carries the name looked up. |
| Applications.SelectDeploymentTargets | pkg/projectlib/applications.go:67-105 | The nested loops, flag and breaks compute `DeploymentTargets`, which holds at most one node. |
| Applications.TargetsAtMostOne | pkg/projectlib/applications.go:99-101 | A successful placement holds at most one node. |
| Applications.NodeVerdictSkipped | pkg/projectlib/applications.go:71-97 | The selectors pass over a node exactly when every selector is well formed and none picks it. |
| Applications.DecisionPoint | pkg/projectlib/applications.go:69-96 | The first (node, selector) step that does not skip decides the outcome. A picking selector gives that node; a malformed one gives the invalid-selector error. |
| Applications.NoDecision | pkg/projectlib/applications.go:104 | When every selector is well formed and none picks any node, the result is empty, with no error. |
| Applications.ErrorIffMalformedReached | pkg/projectlib/applications.go:71-96 | An error is returned exactly when the deciding step is a malformed selector. A malformed selector after one that picks the node is never reported. |
| Applications.PlacedNodeIsFirstPicked | pkg/projectlib/applications.go:72-93 | The node returned is the first, in node order, that some selector picks, by its name or by one of its labels. |
| Applications.NothingToSearch | pkg/projectlib/applications.go:68-71 | Without nodes or without selectors the result is empty, with no error. |
| Validation.IssueString | pkg/projectlib/validation.go:34-40 | A fatal issue prints as `[ERROR] ` followed by its text; any other prints as `[WARN] ` followed by its text. |
| Validation.IssueStringInjective | pkg/projectlib/validation.go:34-40 | The printed line determines both the severity and the text. |
| Validation.Describe | pkg/projectlib/validation.go:98-116 | Every problem is reported as a fatal issue with a non-empty text. |
| Validation.Issues | pkg/projectlib/validation.go:43-59 | One issue per problem, every one of them fatal. |
| Validation.NodeNameIssueInjective | pkg/projectlib/validation.go:68 | Distinct duplicate names give distinct issues. |
| Validation.ValidateNodeNames | pkg/projectlib/validation.go:62-74 | The loop over the nodes, with its map of names seen, reports one problem for each node whose name an earlier node has. |
| Validation.DuplicateNameReportedPerRepeat | pkg/projectlib/validation.go:65-72 | A name carried by k ≥ 1 nodes is reported exactly k − 1 times; an absent name is never reported. |
| Validation.DuplicateNameTotal | pkg/projectlib/validation.go:62-74 | Problems plus distinct names number as many as the nodes. |
| Validation.DuplicateNameKinds | pkg/projectlib/validation.go:68 | The name check raises name problems only. |
| Validation.Atoi | pkg/projectlib/validation.go:98 | `strconv.Atoi` succeeds only on a non-empty string and within the 64-bit range. |
| Validation.Digits | pkg/projectlib/validation.go:98 | The digits of a number are read exactly when the string is non-empty and holds only decimal digits. |
| Validation.ValidPort | pkg/projectlib/validation.go:98-109 | A string accepted as a port is an optional sign followed by decimal digits. |
| Validation.AtoiOfDecimal | pkg/projectlib/validation.go:98 | Reads back the decimal numbers, unsigned or with `+` or `-`, over the whole 64-bit range. |
| Validation.ValidPortOfDecimal | pkg/projectlib/validation.go:98 | A decimal number is accepted as a port exactly when it is at most 65535. That holds with or without `+`; `-n` is accepted only for n = 0. |
| Validation.CheckBinding | pkg/projectlib/validation.go:98-116 | One binding raises an invalid-source problem, an invalid-target problem and a collision problem, each when it applies, in that order. |
| Validation.BindingIssueCounts | pkg/projectlib/validation.go:98-116 | One binding raises at most one problem of each port kind: for an invalid source port, an invalid target port, and a target port already in use. |
| Validation.UsedByBindings | pkg/projectlib/validation.go:117 | After a list of bindings, the ports in use are the earlier ones plus the list's target ports, each owned by this application. |
| Validation.PortIssueCounts | pkg/projectlib/validation.go:97-118 | For any order of the bindings: one problem per invalid source port and one per invalid target port. There is one collision per binding beyond the target ports newly bound. |
| Validation.SourceFaultsReported | pkg/projectlib/validation.go:98-103 | Each binding with an invalid source port is reported. |
| Validation.TargetFaultsReported | pkg/projectlib/validation.go:104-109 | Each binding with an invalid target port is reported. |
| Validation.CollisionsReported | pkg/projectlib/validation.go:111-116 | Each target port already in use is reported with its earlier owner and this application. |
| Validation.RepeatReported | pkg/projectlib/validation.go:111-117 | A target port bound again by a later binding of the same application is reported as that application colliding with itself. |
| Validation.SharedTargetReported | pkg/projectlib/validation.go:97-117 | For any order of an application's ports, two source ports sharing a target port are reported as the application colliding with itself. |
| Validation.PortIssuesAbout | pkg/projectlib/validation.go:97-118 | Every problem raised is about one of the bindings checked. |
| Validation.ListedFaults | pkg/projectlib/validation.go:97 | Along any listing of an application's ports, the faults and target ports are those of the map. |
| Validation.CheckAppPorts | pkg/projectlib/validation.go:97-118 | Checks the bindings of one application in map order, which it returns as a listing, and gives the problems and the ports in use. |
| Validation.CheckedPortsBound | pkg/projectlib/validation.go:117 | Whatever the order: afterwards every target port of the application is in use by it, and every other port keeps its owner. |
| Validation.CheckedPortsCounts | pkg/projectlib/validation.go:97-118 | Whatever the order: one problem per source port that is not a valid port, and one per invalid target port. Collisions number the bindings minus the target ports not yet in use on the node. |
| Validation.CheckedFaultsReported | pkg/projectlib/validation.go:98-109 | Whatever the order, every invalid source or target port of the application is reported. |
| Validation.CheckedCollisionsReported | pkg/projectlib/validation.go:111-116 | Whatever the order, every target port already in use on the node is reported as a collision. |
| Validation.CheckedPortsAbout | pkg/projectlib/validation.go:97-118 | Whatever the order, every problem raised is about one of the application's bindings. |
| Validation.CheckNodePorts | pkg/projectlib/validation.go:95-119 | Checks the applications placed on one node, in placement order, with one map of ports in use. |
| Validation.NodeUsedBound | pkg/projectlib/validation.go:95-119 | Afterwards the node's ports in use are exactly the target ports of its applications, each owned by the last application binding it. |
| Validation.NodeIssueCounts | pkg/projectlib/validation.go:95-119 | On one node: one problem per invalid source port and one per invalid target port. Collisions number the target-port occurrences minus the distinct target ports. |
| Validation.NodeFaultsReported | pkg/projectlib/validation.go:96-109 | On one node, every invalid source or target port of every application is reported. |
| Validation.NodeCollisionsReported | pkg/projectlib/validation.go:111-117 | A target port bound again by a later application on the node is reported with the last earlier owner. |
| Validation.NodeSharedTargetsReported | pkg/projectlib/validation.go:96-117 | On one node, two source ports of one application that share a target port are reported as that application colliding with itself. |
| Validation.NodeIssuesAbout | pkg/projectlib/validation.go:96-118 | Every problem on a node is about a binding of one of its applications. |
| Validation.PlaceApplications | pkg/projectlib/validation.go:77-91 | Groups the applications by the node they are placed on, in application order, or fails with the first placement error. |
| Validation.PlacementError | pkg/projectlib/validation.go:82-87 | Grouping fails exactly when some application cannot be placed, with the error of the first such application. |
| Validation.PlacementPrefix | pkg/projectlib/validation.go:83-86 | Once a prefix fails to place, the whole grouping fails with that error. |
| Validation.PlacementNodes | pkg/projectlib/validation.go:88-90 | Each node name maps to the applications placed on it, in order, and no listed node has an empty list. |
| Validation.PlacementSum | pkg/projectlib/validation.go:82-91 | Summed over the nodes, the invalid ports are those of the placed applications. |
| Validation.CheckNodes | pkg/projectlib/validation.go:93-121 | Checks every node of the grouping, in map order, which it returns as a listing. |
| Validation.AllIssueCounts | pkg/projectlib/validation.go:94-120 | Across the nodes, the problems of each kind add up node by node. |
| Validation.ValidateNodePorts | pkg/projectlib/validation.go:76-122 | Passes on a failure to list the applications and a placement error. Otherwise it returns the problems of every node. |
| Validation.PortProblemCounts | pkg/projectlib/validation.go:93-121 | For any map order, the problems of each kind add up over the nodes. Invalid source and target ports number those of the placed applications, counted once per application. |
| Validation.PortFaultsReported | pkg/projectlib/validation.go:94-109 | For any map order, every invalid source or target port of every placed application is reported. |
| Validation.PortCollisionsReported | pkg/projectlib/validation.go:94-117 | For any map order, a target port bound again by a later application on the same node is reported. The report names the last earlier application that bound it and the later one. |
| Validation.PortSharedTargetsReported | pkg/projectlib/validation.go:94-117 | For any map order, two source ports of one placed application that share a target port are reported as that application colliding with itself on its node. |
| Validation.PortProblemsAbout | pkg/projectlib/validation.go:94-120 | For any map order, every port problem is about a binding of an application placed on the node it names. |
| Validation.Validate | pkg/projectlib/validation.go:42-60 | Returns the name problems followed by the port problems, as fatal issues. A failure of the port check replaces them all. |
| Validation.ValidationCounts | pkg/projectlib/validation.go:42-122 | For any map order, there are as many name problems as nodes beyond the first of each name. The invalid source and target ports are those of the placed applications. The collisions are those of each node. |
| Deployment.Deploy | pkg/projectlib/deployment.go:34-75 | The calls made are those of the plan up to the first failure, and the result is `DeployOutcome`. Without a lock entry only the connection is made. |
| Deployment.DeployOrder | pkg/projectlib/deployment.go:46-70 | The steps are planned in the order connect, pull, stop, create, start, each at most once. |
| Deployment.DeployStopIffRecorded | pkg/projectlib/deployment.go:52-58 | Once the pull succeeds, a container is stopped exactly when the lock records one for the pair, and it is that one. |
| Deployment.DeploySucceeds | pkg/projectlib/deployment.go:34-75 | A deployment succeeds exactly when the lock has an entry and every planned call succeeds. Every planned call is then made. |
| Deployment.DeployFails | pkg/projectlib/deployment.go:36-70 | A failed deployment ends with the call that failed, returning its error. Otherwise it failed for want of a lock entry, after the connection alone. |
| Deployment.CreatePlanned | pkg/projectlib/deployment.go:60-65 | With a lock entry, the plan creates a container from the image the lock records. |
| Deployment.DeployImages | pkg/projectlib/deployment.go:41-62 | The image pulled and the image the container is created from are both the one the lock records for the application. |
| Deployment.DeploySuccessLock | pkg/projectlib/deployment.go:67-74 | The last call of a successful deployment starts a container on the node. The returned lock records that container for the pair, keeps the versions and leaves every other pair as it was. |
| Builds.ImageName | pkg/projectlib/build.go:76-77 | The image name is a repository on the registry's host, tagged with the version token. It starts with the host and `/` and ends with `:` and the token. |
| Builds.ImageNameInjective | pkg/projectlib/build.go:77 | Two builds of one application get the same image name only with the same version token. |
| Builds.ListContextFiles | pkg/projectlib/build.go:60-65 | The loop over the directory listing collects `ContextFiles`: the entries other than `.` and `..`, joined to the application directory, in listing order. |
| Builds.ContextFilesMembers | pkg/projectlib/build.go:60-65 | A path is in the build context exactly when it joins an entry other than `.` and `..` to the application directory. |
| Builds.ContextFilesCount | pkg/projectlib/build.go:60-65 | Every entry except the `.` and `..` ones contributes one file. |
| Builds.Build | pkg/projectlib/build.go:37-114 | The calls made are those of the plan up to the first failure, and the result is `BuildOutcome`. Without a Dockerfile the configured image is returned and no call is made. |
| Builds.BuildSucceeds | pkg/projectlib/build.go:45-113 | With a Dockerfile, a build succeeds exactly when every planned call succeeds, and then every planned call is made. |
| Builds.BuildFails | pkg/projectlib/build.go:45-108 | A failed build ends with the call that failed, and returns its error. |
| Builds.BuildSuccessCalls | pkg/projectlib/build.go:45-113 | A successful build with a Dockerfile returns `host/name:version`. It resolved the node and listed the directory, and built on that node from the listed context with the application's build arguments, tagged with the returned name. It pushed that name from the same node exactly when pushing is not switched off. |
| Builds.BuildNoPushWhenDisabled | pkg/projectlib/build.go:97-111 | With pushing switched off, whatever fails, no credentials are asked for and nothing is pushed. |
| BuildCommand.Selection | cmd/build.go:46-60 | Without an argument, the selection is the listing of all applications, or its error. With one, a listing error is passed on. Otherwise it is a single application carrying the name given, and it fails exactly when no application has that name. |
| BuildCommand.BuildRun | cmd/build.go:37-80 | The run's builds, saved lock and exit message are those of `BuildRunOutcome`. |
| BuildCommand.FailureStays | cmd/build.go:63-72 | Once a build fails, no later application is built. |
| BuildCommand.BuildLoopOrder | cmd/build.go:63-72 | Builds are started in list order; without a failure every build is started. |
| BuildCommand.BuildLoopAllBuilt | cmd/build.go:63-72 | The loop ends without failure exactly when every build succeeds. |
| BuildCommand.BuildLoopFailure | cmd/build.go:65-69 | A failed loop ends with the build that failed, after builds that all succeeded. |
| BuildCommand.BuildLoopKeys | cmd/build.go:62-72 | Without a failure, the recorded names are exactly the applications' names. |
| BuildCommand.BuildLoopImage | cmd/build.go:71 | Each name records the image built for the last application of that name. |
| BuildCommand.BuildLoopStopsAt | cmd/build.go:63-69 | The loop stops at the first failing build and records that application and its error. |
| BuildCommand.BuildRunSaves | cmd/build.go:62-79 | The lock is saved exactly when the selection succeeds and every selected build succeeds. A run that does not save exits with a message. |
| BuildCommand.BuildRunStopsAtFailure | cmd/build.go:63-69 | At the first failing build the run stops unsaved, naming that application and its error. |
| BuildCommand.BuildRunLock | cmd/build.go:62-75 | The saved lock replaces the old one wholesale and records no deployments. Its versions name exactly the selected applications, each with its build result. |
| BuildCommand.BuildRunKeepsImage | cmd/build.go:65-71 | An application without a Dockerfile is recorded under its configured image. |
| BuildCommand.BuildRunSingle | cmd/build.go:47-53 | With an argument, only the first application of that name is selected and built. |
| DeployCommand.ReportErrors | cmd/deploy.go:78-81 | Joins the error texts, each followed by a line break, in order. |
| DeployCommand.DeployRun | cmd/deploy.go:36-84 | The run's errors, saved locks and exit message are those of `DeployRunOutcome`. |
| DeployCommand.DeployHostsAppends | cmd/deploy.go:65-74 | The host loop only appends, one error or one save per host. |
| DeployCommand.DeployHostsLock | cmd/deploy.go:70-73 | After the host loop the lock is the last one saved, or the starting lock when nothing was saved. |
| DeployCommand.DeployHostsVersions | cmd/deploy.go:65-74 | The host loop never changes the versions, in its lock or in any lock it saves. |
| DeployCommand.DeployAppsAppends | cmd/deploy.go:58-75 | The application loop only appends, with as many errors and saves together as there are attempts. A placement error counts as one. |
| DeployCommand.DeployAppsLock | cmd/deploy.go:58-75 | After all applications, the lock is the last one saved, or the loaded lock. |
| DeployCommand.DeployAppsVersions | cmd/deploy.go:58-75 | The versions are never changed. |
| DeployCommand.DeployHostsSaves | cmd/deploy.go:65-73 | Each lock the host loop saves is what deploying the application to one of the hosts returned. The first is deployed from the starting lock, each later one from the lock saved just before. |
| DeployCommand.DeployHostsErrors | cmd/deploy.go:65-70 | Each error the host loop collects is what deploying the application to one of the hosts failed with, from the starting lock or a saved one. |
| DeployCommand.DeployHostsOutcomes | cmd/deploy.go:65-73 | Every deployment to a host, from the lock in force at that point, leaves its error or its lock in the results. |
| DeployCommand.DeployAppsSaves | cmd/deploy.go:58-75 | Each lock the application loop saves is what deploying a placed application to one of its hosts returned. The first is deployed from the starting lock, each later one from the lock saved just before. |
| DeployCommand.DeployAppsErrors | cmd/deploy.go:58-75 | Each collected error is a placement error of an application, or what deploying a placed application to one of its hosts failed with, from the starting lock or a saved one. |
| DeployCommand.DeployAppsPlacements | cmd/deploy.go:59-62 | Every placement error is collected. |
| DeployCommand.DeployAppsOutcomes | cmd/deploy.go:58-75 | Every deployment of a placed application to one of its hosts, from the lock in force at that point, leaves its error or its lock in the results. |
| DeployCommand.AttemptsAtMostApps | cmd/deploy.go:59-65 | Each application is placed on at most one node, so there are at most as many attempts as applications. |
| DeployCommand.ReportAppend | cmd/deploy.go:79-81 | The report of two runs of errors is the first report followed by the second. |
| DeployCommand.ReportLength | cmd/deploy.go:77-82 | The report is empty exactly when there is no error. |
| DeployCommand.DeployRunAborts | cmd/deploy.go:45-55 | A run aborts, with no error collected and nothing saved, exactly when the applications or the lock cannot be loaded. |
| DeployCommand.DeployRunCollects | cmd/deploy.go:57-83 | With both loaded: one error or one save per attempt, at most one per application. The run fails exactly when an error was collected, and its message lists every error in collection order. Every save keeps the loaded versions, and the last save is the final lock. |
| DeployCommand.DeployRunEntries | cmd/deploy.go:57-75 | With both loaded, every entry of the run comes from a `Deploy` it attempted. The k-th save is what deploying a placed application to a host returned, from the loaded lock when k = 0 and from save k − 1 otherwise. Every error is a placement error or a failed such deployment. Every placement error is collected, and every attempt leaves its error or its lock. |

## Left out

- YAML reading and writing (`LoadEnv`, `LoadApp`, `LoadLock`, `RiotLock.Save`): file I/O through a foreign library. The loaded environment, the application list (`Env.applications`) and the loaded lock are inputs. A save in `riot build` is an outcome function, and the saves in `riot deploy` are the locks handed to `Save`, whose result is ignored.
- The filesystem glob and YAML decoding in `GetApplications`: the glob's outcome is a parameter, and `LoadApp` is the parameter `load`.
- Loading the environment (cmd/build.go:40-44, cmd/deploy.go:39-43): a load failure is not modelled; the commands start from a loaded environment.
- The fuzzy "did you mean" suggestion in `GetApplication`: a foreign library. Only the plain not-found error is modelled.
- Docker client construction and TLS (pkg/projectlib/docker.go), and every Docker API call: network clients. Each is an outcome in `Effects.Docker`. `Connect` stands for `GetDockerClient`. As written, `GetDockerClient` never returns its construction error. The `err` declared at pkg/projectlib/docker.go:38 shadows the outer one, so the assignments at lines 40 and 45 go to the inner variable, and the check at line 54 never fires. The model lets `Connect` fail anyway, which covers more outcomes than the code can produce.
- `Application.GetBuildNode`: not present in the shown source. It is an outcome in `Effects.Workspace`.
- `RegistryCfg.GetAuthString`: JSON and base64 encoding of a foreign type. Its outcome is an input.
- `xid.New()`: the version token is an input per application name. Its global uniqueness cannot be stated from this code.
- The temporary file, tar.gz archiving and `os.Open` of the build context: together they are one `MakeContext` step that may fail. The error of `os.Open` is ignored by the source and is not modelled.
- `io.Copy` of engine output and all `log` output: logging. The exit messages of the commands are modelled as strings, without the trailing newline `log` adds.
- `path.Join` lexical cleaning: paths are joined with `/` and not cleaned.
- `Node.IsAvailable`, cmd/status.go, cmd/create.go, cmd/vet.go, cmd/root.go, pkg/projectlib/create.go and pkg/prjlayout/prjlayout.go: network probes, user interface and project scaffolding, which are not part of this model.
- `Locks.AddDeployment`: `RiotLock` in pkg/projectlib/riotlock.go:32-34 has only `Versions`, while deployment.go calls `GetDeployment` and `AddDeployment`. The model adds a deployments map keyed by (application, node) in which `AddDeployment` overwrites an earlier record.
- `Application` fields: `Ports` and `BuildCfg` are not in the struct at pkg/projectlib/applications.go:34-40 but are used by validation.go and build.go. `Ports` is a map from source-port string to target-port string; `BuildCfg` holds the build arguments and `DontPush`.
- Validation.Describe: the text of an invalid source port names the binding's target port, as the source writes it (pkg/projectlib/validation.go:100). The model keeps this.
- Deployment.DeployOrder: states the order of the planned calls; the calls made are a prefix of them by `Effects.ExecutedPrefix`.
