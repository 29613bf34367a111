/** The environment of a riot project (pkg/projectlib/environment.go): its
    registry, its nodes, node selection by a single selector, and application
    lookup by name. */
module Environment {
  import opened Types

  /** A loaded environment. `applications` is the outcome of
      `GetApplications` on the application descriptors below the base
      directory. */
  datatype Env = Env(
    basedir: string,
    registry: RegistryCfg,
    nodes: seq<Node>,
    applications: Result<seq<Application>>)

  function GetRegistry(env: Env): (r: RegistryCfg)
    ensures r == env.registry
  {
    env.registry
  }

  function GetNodes(env: Env): (r: seq<Node>)
    ensures r == env.nodes
  {
    env.nodes
  }

  function GetBaseDir(env: Env): (r: string)
    ensures r == env.basedir
  {
    env.basedir
  }

  /** Loading the application descriptors `files`, in order, with `load`:
      every application they describe, or the error of the first one that
      fails to load. */
  function LoadedApplications(files: seq<string>, load: string -> Result<Application>): (r: Result<seq<Application>>)
    ensures r.Ok? <==> forall i | 0 <= i < |files| :: load(files[i]).Ok?
    ensures r.Ok? ==> |r.value| == |files| && forall i | 0 <= i < |files| :: load(files[i]) == Ok(r.value[i])
    ensures r.Err? ==> exists i | 0 <= i < |files| ::
      load(files[i]) == Err(r.error) && forall j | 0 <= j < i :: load(files[j]).Ok?
  {
    if files == [] then Ok([])
    else
      match load(files[0])
      case Err(e) => Err(e)
      case Ok(app) =>
        match LoadedApplications(files[1..], load)
        case Err(e) => Err(e)
        case Ok(apps) => Ok([app] + apps)
  }

  /** Listing and loading every application of the project. `matches` is the
      outcome of the glob for descriptor files and `load` stands for
      `LoadApp`; `Env.applications` is what this returns. */
  method GetApplications(matches: Result<seq<string>>, load: string -> Result<Application>)
    returns (r: Result<seq<Application>>)
    ensures matches.Err? ==> r == Err(matches.error)
    ensures matches.Ok? ==> r == LoadedApplications(matches.value, load)
  {
    if matches.Err? {
      return Err(matches.error);
    }
    var files := matches.value;
    var result: seq<Application> := [];
    for idx := 0 to |files|
      invariant |result| == idx
      invariant forall i | 0 <= i < idx :: load(files[i]) == Ok(result[i])
    {
      var app := load(files[idx]);
      if app.Err? {
        var i :| 0 <= i < |files| && load(files[i]) == Err(LoadedApplications(files, load).error)
          && forall j | 0 <= j < i :: load(files[j]).Ok?;
        assert i == idx;
        return Err(app.error);
      }
      result := result + [app.value];
    }
    assert result == LoadedApplications(files, load).value;
    return Ok(result);
  }

  // ---------------------------------------------------------------------------
  // Selectors

  /** `strings.HasPrefix(s, "#")`: an id selector naming one node. */
  predicate IsIdSelector(s: string)
  {
    |s| > 0 && s[0] == '#'
  }

  /** `strings.HasPrefix(s, ".")`: a label selector. */
  predicate IsLabelSelector(s: string)
  {
    |s| > 0 && s[0] == '.'
  }

  /** The nodes carrying `wanted`, in their original order. */
  function WithLabel(nodes: seq<Node>, wanted: string): seq<Node>
  {
    if nodes == [] then []
    else WithLabel(Init(nodes), wanted) + (if wanted in Last(nodes).labels then [Last(nodes)] else [])
  }

  /** `s` can be obtained from `t` by deleting elements. */
  predicate IsSubsequence<T(==)>(s: seq<T>, t: seq<T>)
    decreases |t|
  {
    if s == [] then true
    else if t == [] then false
    else if Last(s) == Last(t) then IsSubsequence(Init(s), Init(t))
    else IsSubsequence(s, Init(t))
  }

  /** Node `i` is the first one named `name`. */
  predicate FirstNamed(nodes: seq<Node>, name: string, i: int)
  {
    0 <= i < |nodes| && nodes[i].name == name
    && forall j | 0 <= j < i :: nodes[j].name != name
  }

  lemma {:induction false} WithLabelMembers(nodes: seq<Node>, wanted: string, n: Node)
    ensures n in WithLabel(nodes, wanted) <==> n in nodes && wanted in n.labels
  {
    if nodes != [] {
      WithLabelMembers(Init(nodes), wanted, n);
      assert nodes == Init(nodes) + [Last(nodes)];
    }
  }

  lemma {:induction false} WithLabelIsSubsequence(nodes: seq<Node>, wanted: string)
    ensures IsSubsequence(WithLabel(nodes, wanted), nodes)
  {
    if nodes != [] {
      var w := WithLabel(Init(nodes), wanted);
      WithLabelIsSubsequence(Init(nodes), wanted);
      if wanted in Last(nodes).labels {
        assert Init(w + [Last(nodes)]) == w;
      } else {
        assert WithLabel(nodes, wanted) == w;
        SubsequenceOfInit(w, nodes);
      }
    }
  }

  /** Dropping the last element of the longer sequence keeps a subsequence one. */
  lemma {:induction false} SubsequenceOfInit<T>(s: seq<T>, t: seq<T>)
    requires t != [] && IsSubsequence(s, Init(t))
    ensures IsSubsequence(s, t)
    decreases |t|, 0
  {
    if s != [] && Last(s) == Last(t) {
      SubsequenceShrink(s, Init(t));
    }
  }

  /** A subsequence stays one when its own last element is dropped. */
  lemma {:induction false} SubsequenceShrink<T>(s: seq<T>, t: seq<T>)
    requires s != [] && IsSubsequence(s, t)
    ensures IsSubsequence(Init(s), t)
    decreases |t|, 1
  {
    if Init(s) != [] {
      if Last(s) == Last(t) {
        SubsequenceOfInit(Init(s), t);
      } else {
        SubsequenceShrink(s, Init(t));
        SubsequenceOfInit(Init(s), t);
      }
    }
  }

  lemma {:induction false} SingletonIsSubsequence<T>(t: seq<T>, i: int)
    requires 0 <= i < |t|
    ensures IsSubsequence([t[i]], t)
    decreases |t|
  {
    if i < |t| - 1 {
      SingletonIsSubsequence(Init(t), i);
    } else {
      assert Init([t[i]]) == [];
    }
  }

  /** The linear search the source writes out to find a label on a node. */
  method ContainsLabel(labels: seq<string>, wanted: string) returns (found: bool)
    ensures found <==> wanted in labels
  {
    found := false;
    for i := 0 to |labels|
      invariant !found
      invariant forall j | 0 <= j < i :: labels[j] != wanted
    {
      if labels[i] == wanted {
        found := true;
        break;
      }
    }
  }

  /** Resolves one selector against the environment's nodes, as written: an id
      selector stops at the first node of that name, a label selector collects
      every labelled node, and any other selector is rejected as soon as a node
      is visited (so not at all when there are no nodes). */
  method SelectNodes(env: Env, selector: string) returns (r: Result<seq<Node>>)
    ensures IsIdSelector(selector) ==>
      r.Ok? && |r.value| <= 1
      && (r.value == [] <==> forall i | 0 <= i < |env.nodes| :: env.nodes[i].name != selector[1..])
      && (r.value != [] ==> exists i :: FirstNamed(env.nodes, selector[1..], i) && r.value == [env.nodes[i]])
    ensures IsLabelSelector(selector) ==> r == Ok(WithLabel(env.nodes, selector[1..]))
    ensures !IsIdSelector(selector) && !IsLabelSelector(selector) ==>
      r == if env.nodes == [] then Ok([]) else Err(InvalidSelector(selector))
    ensures r.Ok? ==> IsSubsequence(r.value, env.nodes)
  {
    var nodes := GetNodes(env);
    var result: seq<Node> := [];
    var i := 0;
    while i < |nodes|
      invariant 0 <= i <= |nodes|
      invariant IsIdSelector(selector) ==>
        result == [] && forall j | 0 <= j < i :: nodes[j].name != selector[1..]
      invariant IsLabelSelector(selector) ==> result == WithLabel(nodes[..i], selector[1..])
      invariant !IsIdSelector(selector) && !IsLabelSelector(selector) ==> i == 0 && result == []
    {
      var c := nodes[i];
      if IsIdSelector(selector) {
        if c.name == selector[1..] {
          result := result + [c];
          assert FirstNamed(nodes, selector[1..], i);
          SingletonIsSubsequence(nodes, i);
          return Ok(result);
        }
      } else if IsLabelSelector(selector) {
        var wanted := selector[1..];
        var labelFound := ContainsLabel(c.labels, wanted);
        PrefixStep(nodes, i);
        if labelFound {
          result := result + [c];
        }
      } else {
        return Err(InvalidSelector(selector));
      }
      i := i + 1;
    }
    PrefixWhole(nodes);
    if IsLabelSelector(selector) {
      WithLabelIsSubsequence(nodes, selector[1..]);
    }
    return Ok(result);
  }

  /** Application `i` is the first one named `name`. */
  predicate FirstNamedApp(apps: seq<Application>, name: string, i: int)
  {
    0 <= i < |apps| && apps[i].name == name
    && forall j | 0 <= j < i :: apps[j].name != name
  }

  /** The first of `apps` named `name`, if any. */
  function FindApp(apps: seq<Application>, name: string): Option<Application>
  {
    if apps == [] then None
    else if apps[0].name == name then Some(apps[0])
    else FindApp(apps[1..], name)
  }

  /** The outcome of looking `name` up among the applications of `env`. */
  function LookupApplication(env: Env, name: string): Result<Application>
  {
    match env.applications
    case Err(e) => Err(e)
    case Ok(apps) =>
      match FindApp(apps, name)
      case None => Err(ApplicationNotFound(name))
      case Some(app) => Ok(app)
  }

  /** The search finds the first application of that name, and finds none
      exactly when no application has it. */
  lemma {:induction false} FindAppFirst(apps: seq<Application>, name: string)
    ensures FindApp(apps, name).Some? ==>
      exists i :: FirstNamedApp(apps, name, i) && FindApp(apps, name).value == apps[i]
    ensures FindApp(apps, name).None? <==> forall i | 0 <= i < |apps| :: apps[i].name != name
  {
    if apps != [] && apps[0].name != name {
      FindAppFirst(apps[1..], name);
      if FindApp(apps, name).Some? {
        var i :| FirstNamedApp(apps[1..], name, i) && FindApp(apps, name).value == apps[1..][i];
        assert FirstNamedApp(apps, name, i + 1);
      }
      assert forall i | 0 < i < |apps| :: apps[i] == apps[1..][i - 1];
    } else if apps != [] {
      assert FirstNamedApp(apps, name, 0);
    }
  }

  /** A found application carries the name looked up. */
  lemma LookupApplicationNamed(env: Env, name: string)
    requires LookupApplication(env, name).Ok?
    ensures LookupApplication(env, name).value.name == name
  {
    FindAppFirst(env.applications.value, name);
  }

  /** Looks an application up by its exact name: the first one of that name,
      or a not-found error; a failure to list the applications is passed on. */
  method GetApplication(env: Env, name: string) returns (r: Result<Application>)
    ensures r == LookupApplication(env, name)
    ensures env.applications.Err? ==> r == Err(env.applications.error)
    ensures env.applications.Ok? ==>
      (r.Ok? <==> exists i | 0 <= i < |env.applications.value| :: env.applications.value[i].name == name)
    ensures r.Ok? ==>
      env.applications.Ok? && exists i :: FirstNamedApp(env.applications.value, name, i) && r.value == env.applications.value[i]
    ensures env.applications.Ok? && r.Err? ==> r.error == ApplicationNotFound(name)
  {
    var applications := env.applications;
    if applications.Err? {
      return Err(applications.error);
    }
    var apps := applications.value;
    for i := 0 to |apps|
      invariant forall j | 0 <= j < i :: apps[j].name != name
      invariant FindApp(apps[i..], name) == FindApp(apps, name)
    {
      assert apps[i..][1..] == apps[i + 1..];
      if apps[i].name == name {
        assert FirstNamedApp(apps, name, i);
        return Ok(apps[i]);
      }
    }
    return Err(ApplicationNotFound(name));
  }
}
