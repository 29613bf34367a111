/** Static validation of an environment (pkg/projectlib/validation.go):
    duplicate node names, and for every node the port bindings of the
    applications placed on it. The source walks two Go maps whose iteration
    order is unspecified; the model picks their keys in an arbitrary order and
    states what does not depend on that order: which problems are found and
    how many of each kind. */
module Validation {
  import opened Types
  import opened Environment
  import opened Applications

  /** A problem found in a project configuration, as `vet` prints it. */
  datatype Issue = Issue(description: string, isFatal: bool)

  /** The line `vet` prints for an issue: its severity tag, then its text. */
  function IssueString(issue: Issue): (r: string)
    ensures issue.isFatal ==> r == "[ERROR] " + issue.description
    ensures !issue.isFatal ==> r == "[WARN] " + issue.description
  {
    var level := if issue.isFatal then "ERROR" else "WARN";
    "[" + level + "] " + issue.description
  }

  /** The printed line determines the issue: severity and text can be read back. */
  lemma IssueStringInjective(a: Issue, b: Issue)
    requires IssueString(a) == IssueString(b)
    ensures a == b
  {
    var s := IssueString(a);
    assert s[1] == (if a.isFatal then 'E' else 'W');
    assert s[1] == (if b.isFatal then 'E' else 'W');
    var tag := if a.isFatal then "[ERROR] " else "[WARN] ";
    assert s[|tag|..] == a.description;
    assert s[|tag|..] == b.description;
  }

  // ---------------------------------------------------------------------------
  // The problems validation raises

  /** The four templates validation fills in to build an issue, with the values
      it fills in. */
  datatype Problem =
    | NodeNameNotUnique(name: string)
    | InvalidSourcePort(targetPort: string, app: string)
    | InvalidTargetPort(targetPort: string, app: string)
    | PortCollision(targetPort: string, node: string, first: string, second: string)

  /** The issue a problem is reported as. As written, the text of an invalid
      source port names the binding's target port. Every problem is fatal. */
  function Describe(p: Problem): (issue: Issue)
    ensures issue.isFatal
    ensures |issue.description| > 0
  {
    match p
    case NodeNameNotUnique(n) => Issue("Node name is not unique: " + n, true)
    case InvalidSourcePort(t, a) =>
      Issue("Source port " + t + " on application " + a + " is not a valid port number", true)
    case InvalidTargetPort(t, a) =>
      Issue("Target port " + t + " on application " + a + " is not a valid port number", true)
    case PortCollision(t, n, a, b) =>
      Issue("Port " + t + " on node " + n + " is used by applications " + a + " and " + b, true)
  }

  /** The issues reported for a list of problems, in the same order. */
  function Issues(ps: seq<Problem>): (r: seq<Issue>)
    ensures |r| == |ps|
    ensures forall i | 0 <= i < |r| :: r[i].isFatal
  {
    seq(|ps|, i requires 0 <= i < |ps| => Describe(ps[i]))
  }

  /** Distinct node names give distinct issues. */
  lemma NodeNameIssueInjective(a: string, b: string)
    requires Describe(NodeNameNotUnique(a)) == Describe(NodeNameNotUnique(b))
    ensures a == b
  {
    var prefix := "Node name is not unique: ";
    assert (prefix + a)[|prefix|..] == a;
    assert (prefix + b)[|prefix|..] == b;
  }

  datatype IssueKind = NameKind | SourcePortKind | TargetPortKind | CollisionKind

  function KindOf(p: Problem): IssueKind
  {
    match p
    case NodeNameNotUnique(_) => NameKind
    case InvalidSourcePort(_, _) => SourcePortKind
    case InvalidTargetPort(_, _) => TargetPortKind
    case PortCollision(_, _, _, _) => CollisionKind
  }

  /** How many problems of a kind a list holds. */
  function CountKind(ps: seq<Problem>, kind: IssueKind): nat
  {
    if ps == [] then 0
    else CountKind(Init(ps), kind) + (if KindOf(Last(ps)) == kind then 1 else 0)
  }

  lemma {:induction false} CountKindAppend(a: seq<Problem>, b: seq<Problem>, kind: IssueKind)
    ensures CountKind(a + b, kind) == CountKind(a, kind) + CountKind(b, kind)
    decreases |b|
  {
    if b == [] {
      assert a + b == a;
    } else {
      assert Init(a + b) == a + Init(b);
      assert Last(a + b) == Last(b);
      CountKindAppend(a, Init(b), kind);
    }
  }

  /** The kinds partition a list of problems. */
  lemma {:induction false} CountKindTotal(ps: seq<Problem>)
    ensures CountKind(ps, NameKind) + CountKind(ps, SourcePortKind)
      + CountKind(ps, TargetPortKind) + CountKind(ps, CollisionKind) == |ps|
  {
    if ps != [] {
      CountKindTotal(Init(ps));
    }
  }

  // ---------------------------------------------------------------------------
  // Node names

  /** The names of `nodes`. */
  function NameSet(nodes: seq<Node>): set<string>
  {
    if nodes == [] then {} else NameSet(Init(nodes)) + {Last(nodes).name}
  }

  /** How many of `nodes` are named `name`. */
  function NameCount(nodes: seq<Node>, name: string): nat
  {
    if nodes == [] then 0
    else NameCount(Init(nodes), name) + (if Last(nodes).name == name then 1 else 0)
  }

  /** One problem for every node whose name an earlier node already has. */
  function DuplicateNames(nodes: seq<Node>): seq<Problem>
  {
    if nodes == [] then []
    else DuplicateNames(Init(nodes))
         + (if Last(nodes).name in NameSet(Init(nodes)) then [NodeNameNotUnique(Last(nodes).name)] else [])
  }

  /** The source's loop over the nodes, remembering the names seen in a map
      whose missing keys read as `false`. It never fails. */
  method ValidateNodeNames(env: Env) returns (issues: seq<Problem>)
    ensures issues == DuplicateNames(env.nodes)
  {
    var nodes := env.nodes;
    issues := [];
    var nodeNames: map<string, bool> := map[];
    for i := 0 to |nodes|
      invariant nodeNames.Keys == NameSet(nodes[..i])
      invariant forall n | n in nodeNames :: nodeNames[n]
      invariant issues == DuplicateNames(nodes[..i])
    {
      var node := nodes[i];
      PrefixStep(nodes, i);
      var seen := if node.name in nodeNames then nodeNames[node.name] else false;
      if seen {
        issues := issues + [NodeNameNotUnique(node.name)];
      }
      nodeNames := nodeNames[node.name := true];
    }
    PrefixWhole(nodes);
  }

  lemma {:induction false} NameSetCount(nodes: seq<Node>, name: string)
    ensures name in NameSet(nodes) <==> NameCount(nodes, name) > 0
  {
    if nodes != [] {
      NameSetCount(Init(nodes), name);
    }
  }

  /** A name carried by k >= 1 nodes is reported exactly k - 1 times; a name
      carried by one node or none is never reported. */
  lemma {:induction false} DuplicateNameReportedPerRepeat(nodes: seq<Node>, name: string)
    ensures multiset(DuplicateNames(nodes))[NodeNameNotUnique(name)] ==
      if NameCount(nodes, name) > 0 then NameCount(nodes, name) - 1 else 0
  {
    if nodes != [] {
      DuplicateNameReportedPerRepeat(Init(nodes), name);
      NameSetCount(Init(nodes), Last(nodes).name);
    }
  }

  /** Every node beyond the first of each name yields one problem. */
  lemma {:induction false} DuplicateNameTotal(nodes: seq<Node>)
    ensures |DuplicateNames(nodes)| + |NameSet(nodes)| == |nodes|
  {
    if nodes != [] {
      var init, x := Init(nodes), Last(nodes).name;
      DuplicateNameTotal(init);
      if x in NameSet(init) {
        assert NameSet(nodes) == NameSet(init);
      } else {
        assert |NameSet(init) + {x}| == |NameSet(init)| + 1;
      }
    }
  }

  /** Name checking raises problems of the name kind only. */
  lemma {:induction false} DuplicateNameKinds(nodes: seq<Node>, kind: IssueKind)
    ensures CountKind(DuplicateNames(nodes), kind) ==
      if kind == NameKind then |DuplicateNames(nodes)| else 0
  {
    if nodes != [] {
      var init := Init(nodes);
      DuplicateNameKinds(init, kind);
      var tail := if Last(nodes).name in NameSet(init) then [NodeNameNotUnique(Last(nodes).name)] else [];
      CountKindAppend(DuplicateNames(init), tail, kind);
      if tail != [] {
        assert Init(tail) == [];
      }
    }
  }

  // ---------------------------------------------------------------------------
  // Port numbers

  const MinInt64: int := -0x8000_0000_0000_0000
  const MaxInt64: int := 0x7fff_ffff_ffff_ffff

  function IsDigit(c: char): bool
  {
    '0' <= c <= '9'
  }

  /** The number a non-empty string of decimal digits spells, or `None` when
      the string is empty or holds anything else. */
  function Digits(s: string): (r: Option<nat>)
    ensures r.Some? <==> s != [] && forall i | 0 <= i < |s| :: IsDigit(s[i])
  {
    if s == [] || !IsDigit(Last(s)) then None
    else
      var d := Last(s) as int - '0' as int;
      if |s| == 1 then Some(d)
      else match Digits(Init(s))
        case None => None
        case Some(v) => Some(10 * v + d)
  }

  /** `strconv.Atoi`: an optional sign and at least one decimal digit, within
      the 64-bit range; `None` stands for its error. */
  function Atoi(s: string): (r: Option<int>)
    ensures r.Some? ==> s != [] && MinInt64 <= r.value <= MaxInt64
  {
    if s == [] then None
    else
      var body := if s[0] == '+' || s[0] == '-' then s[1..] else s;
      match Digits(body)
      case None => None
      case Some(v) =>
        var x: int := if s[0] == '-' then 0 - v else v;
        if x < MinInt64 || x > MaxInt64 then None else Some(x)
  }

  /** What validation accepts as a port: `Atoi` succeeds with a value in
      0..65535. Such a port is an optional sign followed by decimal digits. */
  predicate ValidPort(s: string): (r: bool)
    ensures r ==> s != [] && (IsDigit(s[0]) || s[0] == '+' || s[0] == '-')
    ensures r ==> forall i | 1 <= i < |s| :: IsDigit(s[i])
  {
    Atoi(s).Some? && 0 <= Atoi(s).value <= 65535
  }

  /** `strconv.Itoa` on natural numbers: decimal digits without leading zeros. */
  function DecimalString(n: nat): (r: string)
    ensures r != [] && IsDigit(r[0])
  {
    var d := ['0' + (n % 10) as char];
    if n < 10 then d else DecimalString(n / 10) + d
  }

  lemma {:induction false} DigitsOfDecimal(n: nat)
    ensures Digits(DecimalString(n)) == Some(n)
  {
    var d := ['0' + (n % 10) as char];
    if n >= 10 {
      DigitsOfDecimal(n / 10);
      assert Init(DecimalString(n / 10) + d) == DecimalString(n / 10);
    }
  }

  /** `Atoi` reads back what `Itoa` writes, over the whole 64-bit range. */
  lemma AtoiOfDecimal(n: nat)
    requires n <= MaxInt64
    ensures Atoi(DecimalString(n)) == Some(n)
    ensures Atoi("+" + DecimalString(n)) == Some(n)
    ensures Atoi("-" + DecimalString(n)) == Some(0 - n as int)
  {
    DigitsOfDecimal(n);
    assert ("+" + DecimalString(n))[1..] == DecimalString(n);
    assert ("-" + DecimalString(n))[1..] == DecimalString(n);
  }

  /** A decimal number, with or without a leading `+`, is a valid port exactly
      when it is at most 65535; with a leading `-` only zero is. */
  lemma ValidPortOfDecimal(n: nat)
    ensures ValidPort(DecimalString(n)) <==> n <= 65535
    ensures ValidPort("+" + DecimalString(n)) <==> n <= 65535
    ensures ValidPort("-" + DecimalString(n)) <==> n == 0
  {
    DigitsOfDecimal(n);
    if n <= MaxInt64 {
      AtoiOfDecimal(n);
    } else {
      assert ("+" + DecimalString(n))[1..] == DecimalString(n);
      assert ("-" + DecimalString(n))[1..] == DecimalString(n);
    }
  }


  // ---------------------------------------------------------------------------
  // The checks of one port binding

  /** `p` is a problem the check of a binding to `target` can raise. */
  predicate BindingProblem(p: Problem, nodeName: string, appName: string, target: string)
  {
    || p == InvalidSourcePort(target, appName)
    || p == InvalidTargetPort(target, appName)
    || (p.PortCollision? && p.targetPort == target && p.node == nodeName && p.second == appName)
  }

  /** `[p]` when `present`, otherwise nothing. */
  function Optional(present: bool, p: Problem): seq<Problem>
  {
    if present then [p] else []
  }

  /** The problems the check of one binding `source -> target` of application
      `appName` raises, given the target ports already in use on the node. */
  function BindingIssues(nodeName: string, appName: string, source: string, target: string,
                         used: map<string, string>): seq<Problem>
  {
    Optional(!ValidPort(source), InvalidSourcePort(target, appName))
    + Optional(!ValidPort(target), InvalidTargetPort(target, appName))
    + (if target in used then [PortCollision(target, nodeName, used[target], appName)] else [])
  }

  /** One binding raises at most one problem of each port kind: for an invalid
      source port, for an invalid target port, and for a target port in use. */
  lemma BindingIssueCounts(nodeName: string, appName: string, source: string, target: string,
                           used: map<string, string>, kind: IssueKind)
    ensures CountKind(BindingIssues(nodeName, appName, source, target, used), kind) ==
      (if kind == SourcePortKind && !ValidPort(source) then 1 else 0)
      + (if kind == TargetPortKind && !ValidPort(target) then 1 else 0)
      + (if kind == CollisionKind && target in used then 1 else 0)
  {
    var c := if target in used then [PortCollision(target, nodeName, used[target], appName)] else [];
    var badSource, badTarget := !ValidPort(source), !ValidPort(target);
    var p, q := InvalidSourcePort(target, appName), InvalidTargetPort(target, appName);
    assert BindingIssues(nodeName, appName, source, target, used) == Optional(badSource, p) + Optional(badTarget, q) + c;
    CountOptional(badSource, badTarget, p, q, c, kind);
    assert KindOf(p) == SourcePortKind && KindOf(q) == TargetPortKind;
    if target in used {
      CountSnoc([], c[0], kind);
      assert [] + [c[0]] == c;
      assert KindOf(c[0]) == CollisionKind;
    }
    assert CountKind(c, kind) == if kind == CollisionKind && target in used then 1 else 0;
  }

  /** Counting in two optional problems followed by a list. */
  lemma CountOptional(x: bool, y: bool, p: Problem, q: Problem, c: seq<Problem>, kind: IssueKind)
    ensures CountKind(Optional(x, p) + Optional(y, q) + c, kind) ==
      (if x && KindOf(p) == kind then 1 else 0) + (if y && KindOf(q) == kind then 1 else 0) + CountKind(c, kind)
  {
    var a, ab := Optional(x, p), Optional(x, p) + Optional(y, q);
    if x {
      CountSnoc([], p, kind);
      assert [] + [p] == a;
    }
    if y {
      CountSnoc(a, q, kind);
    } else {
      assert ab == a;
    }
    CountKindAppend(ab, c, kind);
  }

  lemma CountSnoc(ps: seq<Problem>, p: Problem, kind: IssueKind)
    ensures CountKind(ps + [p], kind) == CountKind(ps, kind) + (if KindOf(p) == kind then 1 else 0)
  {
    assert Init(ps + [p]) == ps;
  }

  /** The body of the port loop: the checks of one binding, in source order. */
  method CheckBinding(nodeName: string, appName: string, sourcePort: string, targetPort: string,
                      portsUsed: map<string, string>) returns (step: seq<Problem>)
    ensures step == BindingIssues(nodeName, appName, sourcePort, targetPort, portsUsed)
  {
    step := [];
    if !ValidPort(sourcePort) {
      step := step + [InvalidSourcePort(targetPort, appName)];
    }
    if !ValidPort(targetPort) {
      step := step + [InvalidTargetPort(targetPort, appName)];
    }
    if targetPort in portsUsed {
      step := step + [PortCollision(targetPort, nodeName, portsUsed[targetPort], appName)];
    }
  }

  // ---------------------------------------------------------------------------
  // The checks of a list of bindings, in the order listed

  /** A port binding: a source port and the target port it is mapped to. */
  type Binding = (string, string)

  /** The target ports in use once `bs` is checked: each binding records its
      target port as bound by `appName`. */
  function UsedBy(appName: string, used: map<string, string>, bs: seq<Binding>): map<string, string>
  {
    if bs == [] then used else UsedBy(appName, used, Init(bs))[Last(bs).1 := appName]
  }

  /** The problems the checks of `bs`, in that order, raise. */
  function PortIssues(nodeName: string, appName: string, used: map<string, string>, bs: seq<Binding>): seq<Problem>
  {
    if bs == [] then []
    else
      PortIssues(nodeName, appName, used, Init(bs))
      + BindingIssues(nodeName, appName, Last(bs).0, Last(bs).1, UsedBy(appName, used, Init(bs)))
  }

  /** The target ports of `bs`. */
  function Targets(bs: seq<Binding>): set<string>
  {
    if bs == [] then {} else Targets(Init(bs)) + {Last(bs).1}
  }

  /** How many bindings of `bs` have an invalid source port. */
  function SourceFaults(bs: seq<Binding>): nat
  {
    if bs == [] then 0 else SourceFaults(Init(bs)) + (if ValidPort(Last(bs).0) then 0 else 1)
  }

  /** How many bindings of `bs` have an invalid target port. */
  function TargetFaults(bs: seq<Binding>): nat
  {
    if bs == [] then 0 else TargetFaults(Init(bs)) + (if ValidPort(Last(bs).1) then 0 else 1)
  }

  /** Every binding checked is recorded: its target port is bound by
      `appName`, and every other port keeps the application it had. */
  lemma {:induction false} UsedByBindings(appName: string, used: map<string, string>, bs: seq<Binding>)
    ensures UsedBy(appName, used, bs).Keys == used.Keys + Targets(bs)
    ensures forall t | t in UsedBy(appName, used, bs) ::
      UsedBy(appName, used, bs)[t] == if t in Targets(bs) then appName else used[t]
  {
    if bs != [] {
      UsedByBindings(appName, used, Init(bs));
    }
  }

  /** How many problems of `kind` the checks of `bs` raise: one per invalid
      source port, one per invalid target port, and one per binding whose
      target port was already bound, on the node or by an earlier binding. */
  function ExpectedCount(used: map<string, string>, bs: seq<Binding>, kind: IssueKind): int
  {
    match kind
    case SourcePortKind => SourceFaults(bs)
    case TargetPortKind => TargetFaults(bs)
    case CollisionKind => |bs| - |Targets(bs) - used.Keys|
    case NameKind => 0
  }

  /** The ports bound before or by the bindings checked but not before them
      grow by a target port exactly when it is bound for the first time. */
  lemma FreshTargetsStep(done: set<string>, t: string, used: set<string>)
    ensures |(done + {t}) - used| == |done - used| + (if t in used + done then 0 else 1)
  {
    if t in used + done {
      assert (done + {t}) - used == done - used;
    } else {
      assert (done + {t}) - used == (done - used) + {t};
    }
  }

  /** The expected counts grow by what the last binding contributes. */
  lemma ExpectedCountStep(used: map<string, string>, bs: seq<Binding>, kind: IssueKind)
    requires bs != []
    ensures ExpectedCount(used, bs, kind) == ExpectedCount(used, Init(bs), kind)
      + (if kind == SourcePortKind && !ValidPort(Last(bs).0) then 1 else 0)
      + (if kind == TargetPortKind && !ValidPort(Last(bs).1) then 1 else 0)
      + (if kind == CollisionKind && Last(bs).1 in used.Keys + Targets(Init(bs)) then 1 else 0)
  {
    if kind == CollisionKind {
      FreshTargetsStep(Targets(Init(bs)), Last(bs).1, used.Keys);
    }
  }

  /** The problems of each kind number as expected. */
  lemma {:induction false} PortIssueCounts(nodeName: string, appName: string, used: map<string, string>,
                                           bs: seq<Binding>, kind: IssueKind)
    ensures CountKind(PortIssues(nodeName, appName, used, bs), kind) == ExpectedCount(used, bs, kind)
  {
    if bs != [] {
      var init, b := Init(bs), Last(bs);
      var usedNow := UsedBy(appName, used, init);
      PortIssueCounts(nodeName, appName, used, init, kind);
      CountKindAppend(PortIssues(nodeName, appName, used, init),
                      BindingIssues(nodeName, appName, b.0, b.1, usedNow), kind);
      BindingIssueCounts(nodeName, appName, b.0, b.1, usedNow, kind);
      UsedByBindings(appName, used, init);
      ExpectedCountStep(used, bs, kind);
    }
  }

  /** Each binding with an invalid source port is reported. */
  lemma {:induction false} SourceFaultsReported(nodeName: string, appName: string, used: map<string, string>,
                                                bs: seq<Binding>)
    ensures forall i | 0 <= i < |bs| && !ValidPort(bs[i].0) ::
      InvalidSourcePort(bs[i].1, appName) in PortIssues(nodeName, appName, used, bs)
  {
    if bs != [] {
      var init := Init(bs);
      SourceFaultsReported(nodeName, appName, used, init);
      assert forall i | 0 <= i < |init| :: bs[i] == init[i];
    }
  }

  /** Each binding with an invalid target port is reported. */
  lemma {:induction false} TargetFaultsReported(nodeName: string, appName: string, used: map<string, string>,
                                                bs: seq<Binding>)
    ensures forall i | 0 <= i < |bs| && !ValidPort(bs[i].1) ::
      InvalidTargetPort(bs[i].1, appName) in PortIssues(nodeName, appName, used, bs)
  {
    if bs != [] {
      var init := Init(bs);
      TargetFaultsReported(nodeName, appName, used, init);
      assert forall i | 0 <= i < |init| :: bs[i] == init[i];
    }
  }

  /** Each target port bound before the bindings and bound again by one of
      them is reported, naming the application that bound it before. */
  lemma {:induction false} CollisionsReported(nodeName: string, appName: string, used: map<string, string>,
                                              bs: seq<Binding>)
    ensures forall t | t in Targets(bs) && t in used ::
      PortCollision(t, nodeName, used[t], appName) in PortIssues(nodeName, appName, used, bs)
  {
    if bs != [] {
      var init, t := Init(bs), Last(bs).1;
      CollisionsReported(nodeName, appName, used, init);
      if t in used && t !in Targets(init) {
        UsedByBindings(appName, used, init);
      }
    }
  }

  lemma {:induction false} TargetsHas(bs: seq<Binding>, i: int)
    requires 0 <= i < |bs|
    ensures bs[i].1 in Targets(bs)
  {
    if i < |bs| - 1 {
      assert bs[i] == Init(bs)[i];
      TargetsHas(Init(bs), i);
    }
  }

  /** A target port two of the bindings share is reported at the later one,
      as in use by the same application. */
  lemma {:induction false} RepeatReported(nodeName: string, appName: string, used: map<string, string>,
                                          bs: seq<Binding>, i: int, j: int)
    requires 0 <= i < j < |bs| && bs[i].1 == bs[j].1
    ensures PortCollision(bs[j].1, nodeName, appName, appName) in PortIssues(nodeName, appName, used, bs)
  {
    var init := Init(bs);
    if j == |bs| - 1 {
      assert bs[i] == init[i];
      TargetsHas(init, i);
      UsedByBindings(appName, used, init);
      assert PortCollision(bs[j].1, nodeName, appName, appName)
        in BindingIssues(nodeName, appName, Last(bs).0, Last(bs).1, UsedBy(appName, used, init));
    } else {
      assert bs[i] == init[i] && bs[j] == init[j];
      RepeatReported(nodeName, appName, used, init, i, j);
    }
  }

  /** Two source ports of one application mapped to the same target port:
      whatever the order, the second one checked is reported as colliding
      with the application itself. */
  lemma SharedTargetReported(nodeName: string, app: Application, used: map<string, string>, bs: seq<Binding>,
                             s1: string, s2: string)
    requires Lists(bs, app.ports)
    requires s1 in app.ports && s2 in app.ports && s1 != s2 && app.ports[s1] == app.ports[s2]
    ensures PortCollision(app.ports[s1], nodeName, app.name, app.name) in PortIssues(nodeName, app.name, used, bs)
  {
    assert (s1, app.ports[s1]) in bs && (s2, app.ports[s2]) in bs;
    var i :| 0 <= i < |bs| && bs[i] == (s1, app.ports[s1]);
    var j :| 0 <= j < |bs| && bs[j] == (s2, app.ports[s2]);
    if i < j {
      RepeatReported(nodeName, app.name, used, bs, i, j);
    } else {
      RepeatReported(nodeName, app.name, used, bs, j, i);
    }
  }

  /** Every problem of `ps` is one the check of a binding to one of `targets`
      of application `appName` can raise on node `nodeName`. */
  predicate AboutBindings(ps: seq<Problem>, nodeName: string, appName: string, targets: set<string>)
  {
    forall i | 0 <= i < |ps| :: exists t | t in targets :: BindingProblem(ps[i], nodeName, appName, t)
  }

  /** Every problem raised is about one of the bindings. */
  lemma {:induction false} PortIssuesAbout(nodeName: string, appName: string, used: map<string, string>,
                                           bs: seq<Binding>)
    ensures AboutBindings(PortIssues(nodeName, appName, used, bs), nodeName, appName, Targets(bs))
  {
    if bs != [] {
      var init, b := Init(bs), Last(bs);
      var ps := PortIssues(nodeName, appName, used, init);
      var step := BindingIssues(nodeName, appName, b.0, b.1, UsedBy(appName, used, init));
      PortIssuesAbout(nodeName, appName, used, init);
      var all := ps + step;
      forall i | 0 <= i < |all|
        ensures exists t | t in Targets(bs) :: BindingProblem(all[i], nodeName, appName, t)
      {
        if i < |ps| {
          assert all[i] == ps[i];
          var t :| t in Targets(init) && BindingProblem(ps[i], nodeName, appName, t);
          assert t in Targets(bs);
        } else {
          assert all[i] == step[i - |ps|];
          assert BindingProblem(all[i], nodeName, appName, b.1);
          assert b.1 in Targets(bs);
        }
      }
    }
  }

  // ---------------------------------------------------------------------------
  // The bindings of one application, in map order

  /** The source ports in `keys` that are not valid port numbers. */
  function BadSources(keys: set<string>): set<string>
  {
    set s | s in keys && !ValidPort(s)
  }

  /** The source ports in `keys` whose target port is not a valid port number. */
  function BadTargets(ports: map<string, string>, keys: set<string>): set<string>
    requires keys <= ports.Keys
  {
    set s | s in keys && !ValidPort(ports[s])
  }

  /** The target ports bound by the source ports in `keys`. */
  function TargetsOf(ports: map<string, string>, keys: set<string>): set<string>
    requires keys <= ports.Keys
  {
    set s | s in keys :: ports[s]
  }

  lemma BadSourcesStep(done: set<string>, s: string)
    requires s !in done
    ensures |BadSources(done + {s})| == |BadSources(done)| + (if ValidPort(s) then 0 else 1)
  {
    if !ValidPort(s) {
      assert BadSources(done + {s}) == BadSources(done) + {s};
    } else {
      assert BadSources(done + {s}) == BadSources(done);
    }
  }

  lemma BadTargetsStep(ports: map<string, string>, done: set<string>, s: string)
    requires done <= ports.Keys && s in ports.Keys - done
    ensures |BadTargets(ports, done + {s})| == |BadTargets(ports, done)| + (if ValidPort(ports[s]) then 0 else 1)
  {
    if !ValidPort(ports[s]) {
      assert BadTargets(ports, done + {s}) == BadTargets(ports, done) + {s};
    } else {
      assert BadTargets(ports, done + {s}) == BadTargets(ports, done);
    }
  }

  lemma TargetsStep(ports: map<string, string>, done: set<string>, s: string)
    requires done <= ports.Keys && s in ports.Keys
    ensures TargetsOf(ports, done + {s}) == TargetsOf(ports, done) + {ports[s]}
  {
    assert TargetsOf(ports, done + {s}) == TargetsOf(ports, done) + {ports[s]};
  }

  /** Counted along a listing of a map's bindings, the faults and targets are
      those of the source ports listed so far, whatever the order. */
  lemma {:induction false} EntriesFaults(bs: seq<Binding>, ports: map<string, string>)
    requires Entries(bs, ports)
    ensures KeysOf(bs) <= ports.Keys
    ensures Targets(bs) == TargetsOf(ports, KeysOf(bs))
    ensures SourceFaults(bs) == |BadSources(KeysOf(bs))|
    ensures TargetFaults(bs) == |BadTargets(ports, KeysOf(bs))|
  {
    EntriesKeys(bs, ports);
    if bs != [] {
      var init, b := Init(bs), Last(bs);
      assert Entries(init, ports);
      EntriesFaults(init, ports);
      KeysOfMembers(init, b.0);
      TargetsStep(ports, KeysOf(init), b.0);
      BadSourcesStep(KeysOf(init), b.0);
      BadTargetsStep(ports, KeysOf(init), b.0);
    }
  }

  /** A complete listing of a map's bindings has its target ports, and as many
      faults as the map. */
  lemma ListedFaults(bs: seq<Binding>, ports: map<string, string>)
    requires Lists(bs, ports)
    ensures |bs| == |ports|
    ensures Targets(bs) == ports.Values
    ensures SourceFaults(bs) == |BadSources(ports.Keys)|
    ensures TargetFaults(bs) == |BadTargets(ports, ports.Keys)|
  {
    ListsAll(bs, ports);
    EntriesFaults(bs, ports);
    assert TargetsOf(ports, ports.Keys) == ports.Values;
  }

  /** The check of one application's port bindings on node `nodeName`, in the
      arbitrary order Go iterates a map in. `used` maps each target port
      already bound on the node to the application that bound it last; every
      binding is recorded there. */
  method CheckAppPorts(nodeName: string, app: Application, used: map<string, string>)
    returns (issues: seq<Problem>, usedAfter: map<string, string>, bindings: seq<Binding>)
    ensures Lists(bindings, app.ports)
    ensures issues == PortIssues(nodeName, app.name, used, bindings)
    ensures usedAfter == UsedBy(app.name, used, bindings)
  {
    issues := [];
    usedAfter := used;
    bindings := EnumerateMap(app.ports);
    for i := 0 to |bindings|
      invariant issues == PortIssues(nodeName, app.name, used, bindings[..i])
      invariant usedAfter == UsedBy(app.name, used, bindings[..i])
    {
      var (sourcePort, targetPort) := bindings[i];
      PrefixStep(bindings, i);
      var step := CheckBinding(nodeName, app.name, sourcePort, targetPort, usedAfter);
      issues := issues + step;
      usedAfter := usedAfter[targetPort := app.name];
    }
    PrefixWhole(bindings);
  }

  /** After every binding of the application is checked, whatever the order:
      each of its target ports is bound by it, and every other keeps its
      application. */
  lemma CheckedPortsBound(app: Application, used: map<string, string>, bs: seq<Binding>)
    requires Lists(bs, app.ports)
    ensures UsedBy(app.name, used, bs).Keys == used.Keys + app.ports.Values
    ensures forall t | t in UsedBy(app.name, used, bs) ::
      UsedBy(app.name, used, bs)[t] == if t in app.ports.Values then app.name else used[t]
  {
    ListedFaults(bs, app.ports);
    UsedByBindings(app.name, used, bs);
  }

  /** How many problems of `kind` the check of all of `app`'s bindings
      raises when the target ports `used` are already bound on the node: one
      per invalid source port, one per invalid target port, and one per
      binding beyond the target ports newly bound. */
  function AppExpected(app: Application, used: set<string>, kind: IssueKind): int
  {
    match kind
    case SourcePortKind => |BadSources(app.ports.Keys)|
    case TargetPortKind => |BadTargets(app.ports, app.ports.Keys)|
    case CollisionKind => |app.ports| - |app.ports.Values - used|
    case NameKind => 0
  }

  /** After every binding of the application is checked, whatever the order,
      the problems of each kind number as expected. */
  lemma CheckedPortsCounts(nodeName: string, app: Application, used: map<string, string>, bs: seq<Binding>,
                           kind: IssueKind)
    requires Lists(bs, app.ports)
    ensures CountKind(PortIssues(nodeName, app.name, used, bs), kind) == AppExpected(app, used.Keys, kind)
  {
    ListedFaults(bs, app.ports);
    PortIssueCounts(nodeName, app.name, used, bs, kind);
  }

  /** After every binding of the application is checked, whatever the order:
      each invalid source port and each invalid target port is reported. */
  lemma CheckedFaultsReported(nodeName: string, app: Application, used: map<string, string>, bs: seq<Binding>)
    requires Lists(bs, app.ports)
    ensures forall s | s in app.ports && !ValidPort(s) ::
      InvalidSourcePort(app.ports[s], app.name) in PortIssues(nodeName, app.name, used, bs)
    ensures forall s | s in app.ports && !ValidPort(app.ports[s]) ::
      InvalidTargetPort(app.ports[s], app.name) in PortIssues(nodeName, app.name, used, bs)
  {
    SourceFaultsReported(nodeName, app.name, used, bs);
    TargetFaultsReported(nodeName, app.name, used, bs);
    forall s | s in app.ports ensures exists i | 0 <= i < |bs| :: bs[i] == (s, app.ports[s]) {
      assert (s, app.ports[s]) in bs;
    }
  }

  /** After every binding of the application is checked, whatever the order:
      each of its target ports already bound on the node is reported, naming
      the application that bound it. */
  lemma CheckedCollisionsReported(nodeName: string, app: Application, used: map<string, string>, bs: seq<Binding>)
    requires Lists(bs, app.ports)
    ensures forall t | t in app.ports.Values && t in used ::
      PortCollision(t, nodeName, used[t], app.name) in PortIssues(nodeName, app.name, used, bs)
  {
    ListedFaults(bs, app.ports);
    CollisionsReported(nodeName, app.name, used, bs);
  }

  /** After every binding of the application is checked, whatever the order:
      nothing but problems of its bindings is reported. */
  lemma CheckedPortsAbout(nodeName: string, app: Application, used: map<string, string>, bs: seq<Binding>)
    requires Lists(bs, app.ports)
    ensures AboutBindings(PortIssues(nodeName, app.name, used, bs), nodeName, app.name, app.ports.Values)
  {
    ListedFaults(bs, app.ports);
    PortIssuesAbout(nodeName, app.name, used, bs);
  }

  // ---------------------------------------------------------------------------
  // The applications placed on one node, in placement order

  /** The target ports bound by `apps`. */
  function AllTargets(apps: seq<Application>): set<string>
  {
    if apps == [] then {} else AllTargets(Init(apps)) + Last(apps).ports.Values
  }

  /** The last application of `apps` that binds target port `t`. */
  function LastBinder(apps: seq<Application>, t: string): string
    requires t in AllTargets(apps)
  {
    if t in Last(apps).ports.Values then Last(apps).name else LastBinder(Init(apps), t)
  }

  /** `ls[i]` lists the bindings of `apps[i]`. */
  predicate ListsEach(ls: seq<seq<Binding>>, apps: seq<Application>)
  {
    |ls| == |apps| && forall i | 0 <= i < |apps| :: Lists(ls[i], apps[i].ports)
  }

  /** The target ports in use on a node once `apps` are checked, visiting
      `apps[i]`'s bindings in the order `ls[i]`. */
  function NodeUsed(apps: seq<Application>, ls: seq<seq<Binding>>): map<string, string>
    requires |ls| == |apps|
  {
    if apps == [] then map[] else UsedBy(Last(apps).name, NodeUsed(Init(apps), Init(ls)), Last(ls))
  }

  /** The problems the checks of `apps` on node `nodeName` raise, visiting
      `apps[i]`'s bindings in the order `ls[i]`. */
  function NodeIssues(nodeName: string, apps: seq<Application>, ls: seq<seq<Binding>>): seq<Problem>
    requires |ls| == |apps|
  {
    if apps == [] then []
    else NodeIssues(nodeName, Init(apps), Init(ls))
         + PortIssues(nodeName, Last(apps).name, NodeUsed(Init(apps), Init(ls)), Last(ls))
  }

  /** How many bindings `apps` hold between them. */
  function SumPorts(apps: seq<Application>): nat
  {
    if apps == [] then 0 else SumPorts(Init(apps)) + |Last(apps).ports|
  }

  /** How many invalid source ports `apps` hold between them. */
  function SumBadSources(apps: seq<Application>): nat
  {
    if apps == [] then 0 else SumBadSources(Init(apps)) + |BadSources(Last(apps).ports.Keys)|
  }

  /** How many invalid target ports `apps` hold between them. */
  function SumBadTargets(apps: seq<Application>): nat
  {
    if apps == [] then 0 else SumBadTargets(Init(apps)) + |BadTargets(Last(apps).ports, Last(apps).ports.Keys)|
  }

  /** How many problems of `kind` the checks of `apps` on one node raise: one
      per invalid source port, one per invalid target port, and one per
      binding beyond the first of each target port. */
  function NodeExpected(apps: seq<Application>, kind: IssueKind): int
  {
    match kind
    case SourcePortKind => SumBadSources(apps)
    case TargetPortKind => SumBadTargets(apps)
    case CollisionKind => SumPorts(apps) - |AllTargets(apps)|
    case NameKind => 0
  }

  /** The check of the port bindings of the applications placed on node
      `nodeName`, with one map of the target ports in use, filled in as the
      applications are visited in placement order. */
  method CheckNodePorts(nodeName: string, apps: seq<Application>)
    returns (issues: seq<Problem>, listings: seq<seq<Binding>>)
    ensures ListsEach(listings, apps)
    ensures issues == NodeIssues(nodeName, apps, listings)
  {
    var portsUsed: map<string, string> := map[];
    issues := [];
    listings := [];
    for i := 0 to |apps|
      invariant |listings| == i
      invariant ListsEach(listings, apps[..i])
      invariant portsUsed == NodeUsed(apps[..i], listings)
      invariant issues == NodeIssues(nodeName, apps[..i], listings)
    {
      var app := apps[i];
      var appIssues, usedAfter, bindings := CheckAppPorts(nodeName, app, portsUsed);
      PrefixStep(apps, i);
      ListsEachSnoc(listings, apps[..i], bindings, app);
      NodeStep(nodeName, apps[..i], listings, app, bindings);
      issues := issues + appIssues;
      portsUsed := usedAfter;
      listings := listings + [bindings];
    }
    PrefixWhole(apps);
  }

  lemma NodeStep(nodeName: string, apps: seq<Application>, ls: seq<seq<Binding>>, app: Application, bs: seq<Binding>)
    requires |ls| == |apps|
    ensures NodeUsed(apps + [app], ls + [bs]) == UsedBy(app.name, NodeUsed(apps, ls), bs)
    ensures NodeIssues(nodeName, apps + [app], ls + [bs]) ==
      NodeIssues(nodeName, apps, ls) + PortIssues(nodeName, app.name, NodeUsed(apps, ls), bs)
  {
    assert Init(ls + [bs]) == ls && Init(apps + [app]) == apps;
  }

  lemma ListsEachSnoc(ls: seq<seq<Binding>>, apps: seq<Application>, bs: seq<Binding>, app: Application)
    requires ListsEach(ls, apps) && Lists(bs, app.ports)
    ensures ListsEach(ls + [bs], apps + [app])
    ensures Init(ls + [bs]) == ls && Init(apps + [app]) == apps
  {
  }

  lemma ListsEachInit(ls: seq<seq<Binding>>, apps: seq<Application>)
    requires apps != [] && ListsEach(ls, apps)
    ensures ListsEach(Init(ls), Init(apps)) && Lists(Last(ls), Last(apps).ports)
  {
    assert forall i | 0 <= i < |apps| - 1 :: Init(ls)[i] == ls[i] && Init(apps)[i] == apps[i];
  }

  /** Once a node's applications are checked, the map of ports in use holds
      every target port they bind, each mapped to the last application that
      binds it, whatever orders their bindings are visited in. */
  lemma {:induction false} NodeUsedBound(apps: seq<Application>, ls: seq<seq<Binding>>)
    requires ListsEach(ls, apps)
    ensures NodeUsed(apps, ls).Keys == AllTargets(apps)
    ensures forall t | t in NodeUsed(apps, ls) :: NodeUsed(apps, ls)[t] == LastBinder(apps, t)
  {
    if apps != [] {
      ListsEachInit(ls, apps);
      NodeUsedBound(Init(apps), Init(ls));
      CheckedPortsBound(Last(apps), NodeUsed(Init(apps), Init(ls)), Last(ls));
    }
  }

  /** The expected counts of a node grow by those of its last application. */
  lemma NodeExpectedStep(apps: seq<Application>, kind: IssueKind)
    requires apps != []
    ensures NodeExpected(apps, kind) == NodeExpected(Init(apps), kind) + AppExpected(Last(apps), AllTargets(Init(apps)), kind)
  {
    if kind == CollisionKind {
      var a, b := AllTargets(Init(apps)), Last(apps).ports.Values;
      assert a + b == a + (b - a);
    }
  }

  /** The problems of each kind a node's check raises number as expected,
      whatever orders the bindings are visited in. */
  lemma {:induction false} NodeIssueCounts(nodeName: string, apps: seq<Application>, ls: seq<seq<Binding>>,
                                           kind: IssueKind)
    requires ListsEach(ls, apps)
    ensures CountKind(NodeIssues(nodeName, apps, ls), kind) == NodeExpected(apps, kind)
  {
    if apps != [] {
      var init, app := Init(apps), Last(apps);
      var used := NodeUsed(init, Init(ls));
      ListsEachInit(ls, apps);
      NodeIssueCounts(nodeName, init, Init(ls), kind);
      CountKindAppend(NodeIssues(nodeName, init, Init(ls)), PortIssues(nodeName, app.name, used, Last(ls)), kind);
      CheckedPortsCounts(nodeName, app, used, Last(ls), kind);
      NodeUsedBound(init, Init(ls));
      NodeExpectedStep(apps, kind);
    }
  }

  /** An invalid source or target port of one application on the node is
      reported. */
  lemma {:induction false} NodeFaultReported(nodeName: string, apps: seq<Application>, ls: seq<seq<Binding>>,
                                             i: int, s: string)
    requires ListsEach(ls, apps) && 0 <= i < |apps| && s in apps[i].ports
    ensures !ValidPort(s) ==> InvalidSourcePort(apps[i].ports[s], apps[i].name) in NodeIssues(nodeName, apps, ls)
    ensures !ValidPort(apps[i].ports[s]) ==>
      InvalidTargetPort(apps[i].ports[s], apps[i].name) in NodeIssues(nodeName, apps, ls)
  {
    ListsEachInit(ls, apps);
    if i == |apps| - 1 {
      CheckedFaultsReported(nodeName, Last(apps), NodeUsed(Init(apps), Init(ls)), Last(ls));
    } else {
      assert apps[i] == Init(apps)[i];
      NodeFaultReported(nodeName, Init(apps), Init(ls), i, s);
    }
  }

  /** Every invalid source port and every invalid target port of an
      application on the node is reported. */
  lemma NodeFaultsReported(nodeName: string, apps: seq<Application>, ls: seq<seq<Binding>>)
    requires ListsEach(ls, apps)
    ensures forall i, s | 0 <= i < |apps| && s in apps[i].ports && !ValidPort(s) ::
      InvalidSourcePort(apps[i].ports[s], apps[i].name) in NodeIssues(nodeName, apps, ls)
    ensures forall i, s | 0 <= i < |apps| && s in apps[i].ports && !ValidPort(apps[i].ports[s]) ::
      InvalidTargetPort(apps[i].ports[s], apps[i].name) in NodeIssues(nodeName, apps, ls)
  {
    forall i, s | 0 <= i < |apps| && s in apps[i].ports
      ensures !ValidPort(s) ==> InvalidSourcePort(apps[i].ports[s], apps[i].name) in NodeIssues(nodeName, apps, ls)
      ensures !ValidPort(apps[i].ports[s]) ==>
        InvalidTargetPort(apps[i].ports[s], apps[i].name) in NodeIssues(nodeName, apps, ls)
    {
      NodeFaultReported(nodeName, apps, ls, i, s);
    }
  }

  /** A target port one application binds after an earlier application on the
      node bound it is reported, naming the last such earlier one. */
  lemma {:induction false} NodeCollisionReported(nodeName: string, apps: seq<Application>, ls: seq<seq<Binding>>,
                                                 i: int, t: string)
    requires ListsEach(ls, apps) && 0 <= i < |apps|
    requires t in apps[i].ports.Values && t in AllTargets(apps[..i])
    ensures PortCollision(t, nodeName, LastBinder(apps[..i], t), apps[i].name) in NodeIssues(nodeName, apps, ls)
  {
    ListsEachInit(ls, apps);
    if i == |apps| - 1 {
      assert apps[..i] == Init(apps);
      NodeUsedBound(Init(apps), Init(ls));
      CheckedCollisionsReported(nodeName, Last(apps), NodeUsed(Init(apps), Init(ls)), Last(ls));
    } else {
      assert apps[i] == Init(apps)[i] && apps[..i] == Init(apps)[..i];
      NodeCollisionReported(nodeName, Init(apps), Init(ls), i, t);
    }
  }

  /** Every target port an application binds after an earlier application on
      the node bound it is reported, naming the last such earlier one. */
  lemma NodeCollisionsReported(nodeName: string, apps: seq<Application>, ls: seq<seq<Binding>>)
    requires ListsEach(ls, apps)
    ensures forall i, t | 0 <= i < |apps| && t in apps[i].ports.Values && t in AllTargets(apps[..i]) ::
      PortCollision(t, nodeName, LastBinder(apps[..i], t), apps[i].name) in NodeIssues(nodeName, apps, ls)
  {
    forall i, t | 0 <= i < |apps| && t in apps[i].ports.Values && t in AllTargets(apps[..i])
      ensures PortCollision(t, nodeName, LastBinder(apps[..i], t), apps[i].name) in NodeIssues(nodeName, apps, ls)
    {
      NodeCollisionReported(nodeName, apps, ls, i, t);
    }
  }

  /** A target port two source ports of one application on the node share is
      reported as in use by that application itself. */
  lemma {:induction false} NodeSharedTargetReported(nodeName: string, apps: seq<Application>, ls: seq<seq<Binding>>,
                                                    i: int, s1: string, s2: string)
    requires ListsEach(ls, apps) && 0 <= i < |apps|
    requires s1 in apps[i].ports && s2 in apps[i].ports && s1 != s2 && apps[i].ports[s1] == apps[i].ports[s2]
    ensures PortCollision(apps[i].ports[s1], nodeName, apps[i].name, apps[i].name) in NodeIssues(nodeName, apps, ls)
  {
    ListsEachInit(ls, apps);
    if i == |apps| - 1 {
      SharedTargetReported(nodeName, Last(apps), NodeUsed(Init(apps), Init(ls)), Last(ls), s1, s2);
    } else {
      assert apps[i] == Init(apps)[i];
      NodeSharedTargetReported(nodeName, Init(apps), Init(ls), i, s1, s2);
    }
  }

  /** Every target port that two source ports of one application on the node
      share is reported as in use by that application itself. */
  lemma NodeSharedTargetsReported(nodeName: string, apps: seq<Application>, ls: seq<seq<Binding>>)
    requires ListsEach(ls, apps)
    ensures forall i, s1, s2 | 0 <= i < |apps| && s1 in apps[i].ports && s2 in apps[i].ports
                               && s1 != s2 && apps[i].ports[s1] == apps[i].ports[s2] ::
      PortCollision(apps[i].ports[s1], nodeName, apps[i].name, apps[i].name) in NodeIssues(nodeName, apps, ls)
  {
    forall i, s1, s2 | 0 <= i < |apps| && s1 in apps[i].ports && s2 in apps[i].ports
                       && s1 != s2 && apps[i].ports[s1] == apps[i].ports[s2]
      ensures PortCollision(apps[i].ports[s1], nodeName, apps[i].name, apps[i].name) in NodeIssues(nodeName, apps, ls)
    {
      NodeSharedTargetReported(nodeName, apps, ls, i, s1, s2);
    }
  }

  /** Every problem of `ps` is one the check of a binding of one of `apps`
      can raise on node `nodeName`. */
  predicate AboutApps(ps: seq<Problem>, nodeName: string, apps: seq<Application>)
  {
    forall k | 0 <= k < |ps| :: exists i, t | 0 <= i < |apps| && t in apps[i].ports.Values ::
      BindingProblem(ps[k], nodeName, apps[i].name, t)
  }

  /** Every problem a node's check raises is about a binding of one of its
      applications. */
  lemma {:induction false} NodeIssuesAbout(nodeName: string, apps: seq<Application>, ls: seq<seq<Binding>>)
    requires ListsEach(ls, apps)
    ensures AboutApps(NodeIssues(nodeName, apps, ls), nodeName, apps)
  {
    if apps != [] {
      var init, app := Init(apps), Last(apps);
      var used := NodeUsed(init, Init(ls));
      var ps, last := NodeIssues(nodeName, init, Init(ls)), PortIssues(nodeName, app.name, used, Last(ls));
      ListsEachInit(ls, apps);
      NodeIssuesAbout(nodeName, init, Init(ls));
      CheckedPortsAbout(nodeName, app, used, Last(ls));
      var all := ps + last;
      forall k | 0 <= k < |all|
        ensures exists i, t | 0 <= i < |apps| && t in apps[i].ports.Values ::
          BindingProblem(all[k], nodeName, apps[i].name, t)
      {
        if k < |ps| {
          assert all[k] == ps[k];
          var i, t :| 0 <= i < |init| && t in init[i].ports.Values && BindingProblem(ps[k], nodeName, init[i].name, t);
          assert apps[i] == init[i];
        } else {
          assert all[k] == last[k - |ps|];
          var t :| t in app.ports.Values && BindingProblem(last[k - |ps|], nodeName, app.name, t);
          assert apps[|apps| - 1] == app;
        }
      }
    }
  }

  // ---------------------------------------------------------------------------
  // Placement: which applications each node is checked with

  /** A map's entry for `n`, a missing entry reading as an empty list. */
  function Get(m: map<string, seq<Application>>, n: string): seq<Application>
  {
    if n in m then m[n] else []
  }

  /** Appends `app` to the list of each node of `targets`, by node name. */
  function PlaceOn(m: map<string, seq<Application>>, targets: seq<Node>, app: Application): map<string, seq<Application>>
  {
    if targets == [] then m
    else
      var m' := PlaceOn(m, Init(targets), app);
      m'[Last(targets).name := Get(m', Last(targets).name) + [app]]
  }

  /** The applications of each node name, in application order, or the error
      of the first application whose placement fails. */
  function Placement(apps: seq<Application>, nodes: seq<Node>): Result<map<string, seq<Application>>>
  {
    if apps == [] then Ok(map[])
    else match Placement(Init(apps), nodes)
      case Err(e) => Err(e)
      case Ok(m) =>
        match DeploymentTargets(Last(apps).deploymentSelector, nodes)
        case Err(e) => Err(e)
        case Ok(targets) => Ok(PlaceOn(m, targets, Last(apps)))
  }

  /** The name of the node an application is placed on, if it is placed. */
  function PlacedName(app: Application, nodes: seq<Node>): Option<string>
  {
    match DeploymentTargets(app.deploymentSelector, nodes)
    case Ok(targets) => if targets == [] then None else Some(targets[0].name)
    case Err(_) => None
  }

  /** The applications of `apps` placed on a node named `n`, in order. */
  function PlacedOn(apps: seq<Application>, nodes: seq<Node>, n: string): seq<Application>
  {
    if apps == [] then []
    else PlacedOn(Init(apps), nodes, n) + (if PlacedName(Last(apps), nodes) == Some(n) then [Last(apps)] else [])
  }

  /** The applications of `apps` placed on some node, in order. */
  function Placed(apps: seq<Application>, nodes: seq<Node>): seq<Application>
  {
    if apps == [] then []
    else Placed(Init(apps), nodes) + (if PlacedName(Last(apps), nodes).Some? then [Last(apps)] else [])
  }

  /** Application `i` is the first whose placement fails. */
  predicate FirstUnplaceable(apps: seq<Application>, nodes: seq<Node>, i: int)
  {
    && 0 <= i < |apps|
    && DeploymentTargets(apps[i].deploymentSelector, nodes).Err?
    && forall j | 0 <= j < i :: DeploymentTargets(apps[j].deploymentSelector, nodes).Ok?
  }

  /** Placement fails exactly when some application's placement fails, with
      the error of the first such application. */
  lemma {:induction false} PlacementError(apps: seq<Application>, nodes: seq<Node>)
    ensures Placement(apps, nodes).Err? <==>
      exists i | 0 <= i < |apps| :: DeploymentTargets(apps[i].deploymentSelector, nodes).Err?
    ensures Placement(apps, nodes).Err? ==> exists i ::
      FirstUnplaceable(apps, nodes, i)
      && Placement(apps, nodes).error == DeploymentTargets(apps[i].deploymentSelector, nodes).error
  {
    if apps != [] {
      var init := Init(apps);
      PlacementError(init, nodes);
      assert forall j | 0 <= j < |init| :: apps[j] == init[j];
      if Placement(init, nodes).Err? {
        var i :| FirstUnplaceable(init, nodes, i)
          && Placement(init, nodes).error == DeploymentTargets(init[i].deploymentSelector, nodes).error;
        assert FirstUnplaceable(apps, nodes, i);
      } else if DeploymentTargets(Last(apps).deploymentSelector, nodes).Err? {
        assert FirstUnplaceable(apps, nodes, |apps| - 1);
      }
    }
  }

  /** Once a prefix fails to place, the whole placement fails with its error. */
  lemma {:induction false} PlacementPrefix(apps: seq<Application>, nodes: seq<Node>, i: nat)
    requires i <= |apps| && Placement(apps[..i], nodes).Err?
    ensures Placement(apps, nodes) == Placement(apps[..i], nodes)
    decreases |apps| - i
  {
    if i < |apps| {
      assert Init(apps)[..i] == apps[..i];
      PlacementPrefix(Init(apps), nodes, i);
    } else {
      assert apps[..i] == apps;
    }
  }

  /** Appending to the list of at most one node. */
  lemma PlaceOnOne(m: map<string, seq<Application>>, targets: seq<Node>, app: Application)
    requires |targets| <= 1
    ensures PlaceOn(m, targets, app) ==
      if targets == [] then m else m[targets[0].name := Get(m, targets[0].name) + [app]]
  {
    if targets != [] {
      assert Init(targets) == [];
    }
  }

  /** Each node name maps to the applications placed on a node of that name,
      in application order, and only names with some application appear. */
  lemma {:induction false} PlacementNodes(apps: seq<Application>, nodes: seq<Node>)
    requires Placement(apps, nodes).Ok?
    ensures forall n :: Get(Placement(apps, nodes).value, n) == PlacedOn(apps, nodes, n)
    ensures forall n | n in Placement(apps, nodes).value :: Placement(apps, nodes).value[n] != []
  {
    if apps != [] {
      var init, app := Init(apps), Last(apps);
      PlacementNodes(init, nodes);
      var targets := DeploymentTargets(app.deploymentSelector, nodes).value;
      TargetsAtMostOne(app.deploymentSelector, nodes);
      PlaceOnOne(Placement(init, nodes).value, targets, app);
    }
  }

  /** The expected count of problems of `kind` on a node, as a function of
      its applications. */
  function NodeExpectedOf(kind: IssueKind): seq<Application> -> int
  {
    apps => NodeExpected(apps, kind)
  }

  /** Faults add up over the applications. */
  lemma NodeExpectedSnoc(apps: seq<Application>, app: Application, kind: IssueKind)
    requires kind != CollisionKind
    ensures NodeExpected(apps + [app], kind) == NodeExpected(apps, kind) + NodeExpected([app], kind)
  {
    assert Init(apps + [app]) == apps && Last(apps + [app]) == app;
    assert Init([app]) == [] && Last([app]) == app;
    if kind == SourcePortKind {
      assert SumBadSources(apps + [app]) == SumBadSources(apps) + SumBadSources([app]);
    } else if kind == TargetPortKind {
      assert SumBadTargets(apps + [app]) == SumBadTargets(apps) + SumBadTargets([app]);
    }
  }

  /** Appending an application to one node's list adds its faults to the sum. */
  lemma AppendSum(m: map<string, seq<Application>>, n: string, app: Application, kind: IssueKind)
    requires kind != CollisionKind
    ensures MapSum(m[n := Get(m, n) + [app]], NodeExpectedOf(kind)) ==
      MapSum(m, NodeExpectedOf(kind)) + NodeExpected([app], kind)
  {
    var f := NodeExpectedOf(kind);
    var m' := m[n := Get(m, n) + [app]];
    MapSumRemove(m', f, n);
    assert m' - {n} == m - {n};
    if n in m {
      MapSumRemove(m, f, n);
    } else {
      assert m - {n} == m;
      assert Get(m, n) + [app] == [app];
    }
    NodeExpectedSnoc(Get(m, n), app, kind);
  }

  /** Summed over the nodes, the invalid source ports and invalid target
      ports are those of the applications placed somewhere. */
  lemma {:induction false} PlacementSum(apps: seq<Application>, nodes: seq<Node>, kind: IssueKind)
    requires Placement(apps, nodes).Ok? && kind != CollisionKind
    ensures MapSum(Placement(apps, nodes).value, NodeExpectedOf(kind)) == NodeExpected(Placed(apps, nodes), kind)
  {
    if apps == [] {
      assert Placement(apps, nodes).value == map[];
    } else {
      var init, app := Init(apps), Last(apps);
      var m0 := Placement(init, nodes).value;
      PlacementSum(init, nodes, kind);
      var targets := DeploymentTargets(app.deploymentSelector, nodes).value;
      TargetsAtMostOne(app.deploymentSelector, nodes);
      PlaceOnOne(m0, targets, app);
      if targets != [] {
        assert Placed(apps, nodes) == Placed(init, nodes) + [app];
        AppendSum(m0, targets[0].name, app, kind);
        NodeExpectedSnoc(Placed(init, nodes), app, kind);
      } else {
        assert Placed(apps, nodes) == Placed(init, nodes);
      }
    }
  }

  /** An application placed on a node named `n` is in that node's list. */
  lemma {:induction false} PlacedOnMember(apps: seq<Application>, nodes: seq<Node>, n: string, i: int)
    requires 0 <= i < |apps| && PlacedName(apps[i], nodes) == Some(n)
    ensures apps[i] in PlacedOn(apps, nodes, n)
  {
    if i < |apps| - 1 {
      assert apps[i] == Init(apps)[i];
      PlacedOnMember(Init(apps), nodes, n, i);
    }
  }

  // ---------------------------------------------------------------------------
  // The port checks of every node, in map order

  /** `lss[k]` has one listing per application of node entry `order[k]`. */
  predicate Shaped(lss: seq<seq<seq<Binding>>>, order: seq<(string, seq<Application>)>)
  {
    |lss| == |order| && forall k | 0 <= k < |order| :: |lss[k]| == |order[k].1|
  }

  /** `lss[k][i]` lists the bindings of the `i`th application of node entry `order[k]`. */
  predicate ListsNodes(lss: seq<seq<seq<Binding>>>, order: seq<(string, seq<Application>)>)
  {
    Shaped(lss, order) && forall k | 0 <= k < |order| :: ListsEach(lss[k], order[k].1)
  }

  /** The problems the checks of every node of `order` raise, node after node. */
  function AllIssues(order: seq<(string, seq<Application>)>, lss: seq<seq<seq<Binding>>>): seq<Problem>
    requires Shaped(lss, order)
  {
    if order == [] then []
    else AllIssues(Init(order), Init(lss)) + NodeIssues(Last(order).0, Last(order).1, Last(lss))
  }

  lemma ListsNodesInit(lss: seq<seq<seq<Binding>>>, order: seq<(string, seq<Application>)>)
    requires order != [] && ListsNodes(lss, order)
    ensures ListsNodes(Init(lss), Init(order)) && ListsEach(Last(lss), Last(order).1)
  {
    assert forall k | 0 <= k < |order| - 1 :: Init(lss)[k] == lss[k] && Init(order)[k] == order[k];
  }

  lemma ListsNodesAt(lss: seq<seq<seq<Binding>>>, order: seq<(string, seq<Application>)>, k: int)
    requires ListsNodes(lss, order) && 0 <= k < |order|
    ensures ListsEach(lss[k], order[k].1)
  {
  }

  lemma ListsNodesSnoc(lss: seq<seq<seq<Binding>>>, order: seq<(string, seq<Application>)>,
                       ls: seq<seq<Binding>>, entry: (string, seq<Application>))
    requires ListsNodes(lss, order) && ListsEach(ls, entry.1)
    ensures ListsNodes(lss + [ls], order + [entry])
    ensures Init(lss + [ls]) == lss && Init(order + [entry]) == order
  {
  }

  /** The problems of each kind, summed over the nodes in the order visited. */
  lemma {:induction false} AllIssueCounts(order: seq<(string, seq<Application>)>, lss: seq<seq<seq<Binding>>>,
                                          kind: IssueKind)
    requires ListsNodes(lss, order)
    ensures CountKind(AllIssues(order, lss), kind) == PairsSum(order, NodeExpectedOf(kind))
  {
    if order != [] {
      var (n, apps) := Last(order);
      ListsNodesInit(lss, order);
      AllIssueCounts(Init(order), Init(lss), kind);
      CountKindAppend(AllIssues(Init(order), Init(lss)), NodeIssues(n, apps, Last(lss)), kind);
      NodeIssueCounts(n, apps, Last(lss), kind);
    }
  }

  /** Every problem of a node's check is among all the problems. */
  lemma {:induction false} AllIssuesContain(order: seq<(string, seq<Application>)>, lss: seq<seq<seq<Binding>>>,
                                            k: int, p: Problem)
    requires Shaped(lss, order) && 0 <= k < |order|
    requires p in NodeIssues(order[k].0, order[k].1, lss[k])
    ensures p in AllIssues(order, lss)
  {
    if k < |order| - 1 {
      assert Init(order)[k] == order[k] && Init(lss)[k] == lss[k];
      AllIssuesContain(Init(order), Init(lss), k, p);
    }
  }

  /** Every problem comes from some node's check. */
  lemma {:induction false} AllIssuesFrom(order: seq<(string, seq<Application>)>, lss: seq<seq<seq<Binding>>>,
                                         p: Problem) returns (k: int)
    requires Shaped(lss, order) && p in AllIssues(order, lss)
    ensures 0 <= k < |order| && p in NodeIssues(order[k].0, order[k].1, lss[k])
  {
    if p in AllIssues(Init(order), Init(lss)) {
      k := AllIssuesFrom(Init(order), Init(lss), p);
      assert Init(order)[k] == order[k] && Init(lss)[k] == lss[k];
    } else {
      k := |order| - 1;
    }
  }

  /** The first loop of the port check: each application, in order, is
      appended to the list of every node its selectors place it on, the
      lists being keyed by node name; the first failing placement ends it. */
  method PlaceApplications(apps: seq<Application>, env: Env) returns (r: Result<map<string, seq<Application>>>)
    ensures r == Placement(apps, env.nodes)
  {
    var nodeAppMap: map<string, seq<Application>> := map[];
    for i := 0 to |apps|
      invariant Placement(apps[..i], env.nodes) == Ok(nodeAppMap)
    {
      var app := apps[i];
      PrefixStep(apps, i);
      var nodes := SelectDeploymentTargets(app, env);
      if nodes.Err? {
        PlacementPrefix(apps, env.nodes, i + 1);
        return Err(nodes.error);
      }
      ghost var before := nodeAppMap;
      for j := 0 to |nodes.value|
        invariant nodeAppMap == PlaceOn(before, nodes.value[..j], app)
      {
        var node := nodes.value[j];
        PrefixStep(nodes.value, j);
        var current := if node.name in nodeAppMap then nodeAppMap[node.name] else [];
        nodeAppMap := nodeAppMap[node.name := current + [app]];
      }
      PrefixWhole(nodes.value);
    }
    PrefixWhole(apps);
    return Ok(nodeAppMap);
  }

  /** The second loop of the port check: every node of the placement, in map
      order, each with its own map of ports in use. */
  method CheckNodes(nodeAppMap: map<string, seq<Application>>)
    returns (issues: seq<Problem>, order: seq<(string, seq<Application>)>, listings: seq<seq<seq<Binding>>>)
    ensures Lists(order, nodeAppMap)
    ensures ListsNodes(listings, order)
    ensures issues == AllIssues(order, listings)
  {
    order := EnumerateMap(nodeAppMap);
    issues, listings := [], [];
    for k := 0 to |order|
      invariant ListsNodes(listings, order[..k])
      invariant issues == AllIssues(order[..k], listings)
    {
      var (nodeName, nodeApps) := order[k];
      var nodeIssues, ls := CheckNodePorts(nodeName, nodeApps);
      PrefixStep(order, k);
      ListsNodesSnoc(listings, order[..k], ls, order[k]);
      issues := issues + nodeIssues;
      listings := listings + [ls];
    }
    PrefixWhole(order);
  }

  /** The check of the port bindings of every application, node by node: a
      failure to list the applications or to place one of them is passed on;
      otherwise the nodes are visited in map order, each with the
      applications placed on it in application order. */
  method ValidateNodePorts(env: Env)
    returns (r: Result<seq<Problem>>, order: seq<(string, seq<Application>)>, listings: seq<seq<seq<Binding>>>)
    ensures env.applications.Err? ==> r == Err(env.applications.error)
    ensures env.applications.Ok? && Placement(env.applications.value, env.nodes).Err? ==>
      r == Err(Placement(env.applications.value, env.nodes).error)
    ensures env.applications.Ok? && Placement(env.applications.value, env.nodes).Ok? ==>
      && Lists(order, Placement(env.applications.value, env.nodes).value)
      && ListsNodes(listings, order)
      && r == Ok(AllIssues(order, listings))
  {
    order, listings := [], [];
    var applications := env.applications;
    if applications.Err? {
      return Err(applications.error), order, listings;
    }
    var placement := PlaceApplications(applications.value, env);
    if placement.Err? {
      return Err(placement.error), order, listings;
    }
    var issues;
    issues, order, listings := CheckNodes(placement.value);
    return Ok(issues), order, listings;
  }

  /** Across all nodes, the problems of each kind number as the placement
      predicts, whatever order the nodes and bindings are visited in; the
      invalid source and target ports are exactly those of the applications
      placed somewhere, each counted once. */
  lemma PortProblemCounts(apps: seq<Application>, nodes: seq<Node>, order: seq<(string, seq<Application>)>,
                          lss: seq<seq<seq<Binding>>>, kind: IssueKind)
    requires Placement(apps, nodes).Ok?
    requires Lists(order, Placement(apps, nodes).value) && ListsNodes(lss, order)
    ensures CountKind(AllIssues(order, lss), kind) == MapSum(Placement(apps, nodes).value, NodeExpectedOf(kind))
    ensures kind != CollisionKind ==> CountKind(AllIssues(order, lss), kind) == NodeExpected(Placed(apps, nodes), kind)
  {
    AllIssueCounts(order, lss, kind);
    ListsSum(order, Placement(apps, nodes).value, NodeExpectedOf(kind));
    if kind != CollisionKind {
      PlacementSum(apps, nodes, kind);
    }
  }

  /** The node entry of `order` for node name `n`, with its applications. */
  lemma EntryOf(apps: seq<Application>, nodes: seq<Node>, order: seq<(string, seq<Application>)>, n: string)
    returns (k: int)
    requires Placement(apps, nodes).Ok? && Lists(order, Placement(apps, nodes).value)
    requires PlacedOn(apps, nodes, n) != []
    ensures 0 <= k < |order| && order[k] == (n, PlacedOn(apps, nodes, n))
  {
    var m := Placement(apps, nodes).value;
    PlacementNodes(apps, nodes);
    assert Get(m, n) == PlacedOn(apps, nodes, n);
    assert (n, m[n]) in order;
    k :| 0 <= k < |order| && order[k] == (n, m[n]);
  }

  /** Every invalid source port and every invalid target port of an
      application placed on some node is reported; unplaced applications are
      not checked. */
  lemma PortFaultsReported(apps: seq<Application>, nodes: seq<Node>, order: seq<(string, seq<Application>)>,
                           lss: seq<seq<seq<Binding>>>)
    requires Placement(apps, nodes).Ok?
    requires Lists(order, Placement(apps, nodes).value) && ListsNodes(lss, order)
    ensures forall i, s | 0 <= i < |apps| && PlacedName(apps[i], nodes).Some? && s in apps[i].ports && !ValidPort(s) ::
      InvalidSourcePort(apps[i].ports[s], apps[i].name) in AllIssues(order, lss)
    ensures forall i, s | 0 <= i < |apps| && PlacedName(apps[i], nodes).Some? && s in apps[i].ports
                          && !ValidPort(apps[i].ports[s]) ::
      InvalidTargetPort(apps[i].ports[s], apps[i].name) in AllIssues(order, lss)
  {
    forall i | 0 <= i < |apps| && PlacedName(apps[i], nodes).Some?
      ensures forall s | s in apps[i].ports && !ValidPort(s) ::
        InvalidSourcePort(apps[i].ports[s], apps[i].name) in AllIssues(order, lss)
      ensures forall s | s in apps[i].ports && !ValidPort(apps[i].ports[s]) ::
        InvalidTargetPort(apps[i].ports[s], apps[i].name) in AllIssues(order, lss)
    {
      var n := PlacedName(apps[i], nodes).value;
      PlacedOnMember(apps, nodes, n, i);
      var k := EntryOf(apps, nodes, order, n);
      var j :| 0 <= j < |order[k].1| && order[k].1[j] == apps[i];
      NodeFaultsReported(n, order[k].1, lss[k]);
      forall p | p in NodeIssues(n, order[k].1, lss[k]) ensures p in AllIssues(order, lss) {
        AllIssuesContain(order, lss, k, p);
      }
    }
  }

  /** On every node, every target port an application binds after an earlier
      application on that node bound it is reported, naming the node and the
      last such earlier application. */
  lemma PortCollisionsReported(apps: seq<Application>, nodes: seq<Node>, order: seq<(string, seq<Application>)>,
                               lss: seq<seq<seq<Binding>>>)
    requires Placement(apps, nodes).Ok?
    requires Lists(order, Placement(apps, nodes).value) && ListsNodes(lss, order)
    ensures forall n, i, t | 0 <= i < |PlacedOn(apps, nodes, n)|
                             && t in PlacedOn(apps, nodes, n)[i].ports.Values
                             && t in AllTargets(PlacedOn(apps, nodes, n)[..i]) ::
      PortCollision(t, n, LastBinder(PlacedOn(apps, nodes, n)[..i], t), PlacedOn(apps, nodes, n)[i].name)
        in AllIssues(order, lss)
  {
    forall n | PlacedOn(apps, nodes, n) != []
      ensures forall i, t | 0 <= i < |PlacedOn(apps, nodes, n)|
                            && t in PlacedOn(apps, nodes, n)[i].ports.Values
                            && t in AllTargets(PlacedOn(apps, nodes, n)[..i]) ::
        PortCollision(t, n, LastBinder(PlacedOn(apps, nodes, n)[..i], t), PlacedOn(apps, nodes, n)[i].name)
          in AllIssues(order, lss)
    {
      var k := EntryOf(apps, nodes, order, n);
      NodeCollisionsReported(n, order[k].1, lss[k]);
      forall p | p in NodeIssues(n, order[k].1, lss[k]) ensures p in AllIssues(order, lss) {
        AllIssuesContain(order, lss, k, p);
      }
    }
  }

  /** For any map order, every target port that two source ports of one
      placed application share is reported, on the node the application is
      placed on, as in use by that application itself. */
  lemma PortSharedTargetsReported(apps: seq<Application>, nodes: seq<Node>, order: seq<(string, seq<Application>)>,
                                  lss: seq<seq<seq<Binding>>>)
    requires Placement(apps, nodes).Ok?
    requires Lists(order, Placement(apps, nodes).value) && ListsNodes(lss, order)
    ensures forall n, i, s1, s2 | 0 <= i < |PlacedOn(apps, nodes, n)|
                                  && s1 in PlacedOn(apps, nodes, n)[i].ports && s2 in PlacedOn(apps, nodes, n)[i].ports
                                  && s1 != s2 && PlacedOn(apps, nodes, n)[i].ports[s1] == PlacedOn(apps, nodes, n)[i].ports[s2] ::
      PortCollision(PlacedOn(apps, nodes, n)[i].ports[s1], n, PlacedOn(apps, nodes, n)[i].name, PlacedOn(apps, nodes, n)[i].name)
        in AllIssues(order, lss)
  {
    forall n | PlacedOn(apps, nodes, n) != []
      ensures forall i, s1, s2 | 0 <= i < |PlacedOn(apps, nodes, n)|
                                 && s1 in PlacedOn(apps, nodes, n)[i].ports && s2 in PlacedOn(apps, nodes, n)[i].ports
                                 && s1 != s2 && PlacedOn(apps, nodes, n)[i].ports[s1] == PlacedOn(apps, nodes, n)[i].ports[s2] ::
        PortCollision(PlacedOn(apps, nodes, n)[i].ports[s1], n, PlacedOn(apps, nodes, n)[i].name, PlacedOn(apps, nodes, n)[i].name)
          in AllIssues(order, lss)
    {
      var k := EntryOf(apps, nodes, order, n);
      NodeSharedTargetsReported(n, order[k].1, lss[k]);
      forall p | p in NodeIssues(n, order[k].1, lss[k]) ensures p in AllIssues(order, lss) {
        AllIssuesContain(order, lss, k, p);
      }
    }
  }

  /** `p` is a problem the check of a binding of an application placed on a
      node named `n` can raise, naming that node. */
  ghost predicate AboutPlaced(p: Problem, apps: seq<Application>, nodes: seq<Node>)
  {
    exists n, i, t ::
      0 <= i < |PlacedOn(apps, nodes, n)| && t in PlacedOn(apps, nodes, n)[i].ports.Values
      && BindingProblem(p, n, PlacedOn(apps, nodes, n)[i].name, t)
  }

  /** Every problem reported is about a binding of an application placed on
      the node it names. */
  lemma PortProblemsAbout(apps: seq<Application>, nodes: seq<Node>, order: seq<(string, seq<Application>)>,
                          lss: seq<seq<seq<Binding>>>)
    requires Placement(apps, nodes).Ok?
    requires Lists(order, Placement(apps, nodes).value) && ListsNodes(lss, order)
    ensures forall p | p in AllIssues(order, lss) :: AboutPlaced(p, apps, nodes)
  {
    var m := Placement(apps, nodes).value;
    PlacementNodes(apps, nodes);
    forall p | p in AllIssues(order, lss) ensures AboutPlaced(p, apps, nodes) {
      var k := AllIssuesFrom(order, lss, p);
      var n, nodeApps := order[k].0, order[k].1;
      assert n in m && m[n] == nodeApps;
      assert PlacedOn(apps, nodes, n) == Get(m, n) == nodeApps;
      ListsNodesAt(lss, order, k);
      NodeIssuesAbout(n, nodeApps, lss[k]);
      var q :| 0 <= q < |NodeIssues(n, nodeApps, lss[k])| && NodeIssues(n, nodeApps, lss[k])[q] == p;
      var i, t :| 0 <= i < |nodeApps| && t in nodeApps[i].ports.Values && BindingProblem(p, n, nodeApps[i].name, t);
      assert 0 <= i < |PlacedOn(apps, nodes, n)| && t in PlacedOn(apps, nodes, n)[i].ports.Values
        && BindingProblem(p, n, PlacedOn(apps, nodes, n)[i].name, t);
    }
  }

  // ---------------------------------------------------------------------------
  // Validate

  /** `Validate`: the node-name problems, then the port problems, reported as
      issues; a failure of the port check is passed on. The name check cannot
      fail. */
  method Validate(env: Env)
    returns (r: Result<seq<Issue>>, problems: seq<Problem>, order: seq<(string, seq<Application>)>,
             listings: seq<seq<seq<Binding>>>)
    ensures env.applications.Err? ==> r == Err(env.applications.error)
    ensures env.applications.Ok? && Placement(env.applications.value, env.nodes).Err? ==>
      r == Err(Placement(env.applications.value, env.nodes).error)
    ensures env.applications.Ok? && Placement(env.applications.value, env.nodes).Ok? ==>
      && Lists(order, Placement(env.applications.value, env.nodes).value)
      && ListsNodes(listings, order)
      && problems == DuplicateNames(env.nodes) + AllIssues(order, listings)
      && r == Ok(Issues(problems))
  {
    var nameIssues := ValidateNodeNames(env);
    problems := nameIssues;
    var portIssues;
    portIssues, order, listings := ValidateNodePorts(env);
    if portIssues.Err? {
      return Err(portIssues.error), problems, order, listings;
    }
    problems := problems + portIssues.value;
    return Ok(Issues(problems)), problems, order, listings;
  }

  /** How many issues of each kind validation reports: one per node beyond
      the first of each name, one per invalid source or target port of a
      placed application, and per node one per binding beyond the first of
      each target port. */
  lemma ValidationCounts(nodes: seq<Node>, apps: seq<Application>, order: seq<(string, seq<Application>)>,
                         lss: seq<seq<seq<Binding>>>)
    requires Placement(apps, nodes).Ok?
    requires Lists(order, Placement(apps, nodes).value) && ListsNodes(lss, order)
    ensures CountKind(DuplicateNames(nodes) + AllIssues(order, lss), NameKind) == |nodes| - |NameSet(nodes)|
    ensures CountKind(DuplicateNames(nodes) + AllIssues(order, lss), SourcePortKind) ==
      SumBadSources(Placed(apps, nodes))
    ensures CountKind(DuplicateNames(nodes) + AllIssues(order, lss), TargetPortKind) ==
      SumBadTargets(Placed(apps, nodes))
    ensures CountKind(DuplicateNames(nodes) + AllIssues(order, lss), CollisionKind) ==
      MapSum(Placement(apps, nodes).value, NodeExpectedOf(CollisionKind))
  {
    var ps := AllIssues(order, lss);
    DuplicateNameTotal(nodes);
    forall kind: IssueKind
      ensures CountKind(DuplicateNames(nodes) + ps, kind) ==
        (if kind == NameKind then |DuplicateNames(nodes)| else 0) + CountKind(ps, kind)
    {
      CountKindAppend(DuplicateNames(nodes), ps, kind);
      DuplicateNameKinds(nodes, kind);
    }
    PortProblemCounts(apps, nodes, order, lss, NameKind);
    PortProblemCounts(apps, nodes, order, lss, SourcePortKind);
    PortProblemCounts(apps, nodes, order, lss, TargetPortKind);
    PortProblemCounts(apps, nodes, order, lss, CollisionKind);
  }
}
