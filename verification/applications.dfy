/** Placement of an application (pkg/projectlib/applications.go): resolving its
    list of deployment selectors against the environment's nodes. As written,
    the search stops at the first node some selector picks, so an application
    is placed on at most one node. */
module Applications {
  import opened Types
  import opened Environment

  /** What one selector says about one node. */
  datatype Verdict = Selected | Skipped | Rejected(selector: string)

  function SelectorVerdict(selector: string, node: Node): Verdict
  {
    if IsIdSelector(selector) then (if node.name == selector[1..] then Selected else Skipped)
    else if IsLabelSelector(selector) then (if selector[1..] in node.labels then Selected else Skipped)
    else Rejected(selector)
  }

  /** The verdict of the first selector, in list order, that does not skip the node. */
  function NodeVerdict(selectors: seq<string>, node: Node): Verdict
  {
    if selectors == [] then Skipped
    else if SelectorVerdict(selectors[0], node) == Skipped then NodeVerdict(selectors[1..], node)
    else SelectorVerdict(selectors[0], node)
  }

  /** The outcome of placing an application with `selectors`: decided by the
      first node, in node order, that some selector does not skip. */
  function DeploymentTargets(selectors: seq<string>, nodes: seq<Node>): Result<seq<Node>>
  {
    if nodes == [] then Ok([])
    else match NodeVerdict(selectors, nodes[0])
      case Selected => Ok([nodes[0]])
      case Rejected(s) => Err(InvalidSelector(s))
      case Skipped => DeploymentTargets(selectors, nodes[1..])
  }

  /** Every selector is well formed and leaves `node` unselected. */
  predicate AllSkip(selectors: seq<string>, node: Node)
  {
    forall m | 0 <= m < |selectors| :: SelectorVerdict(selectors[m], node) == Skipped
  }

  /** Selector `k` on node `i` is the first step of the nested search that does
      not skip: every earlier node is skipped by every selector, and every
      earlier selector skips node `i`. */
  predicate Decides(selectors: seq<string>, nodes: seq<Node>, i: int, k: int)
  {
    && 0 <= i < |nodes| && 0 <= k < |selectors|
    && (forall j | 0 <= j < i :: AllSkip(selectors, nodes[j]))
    && (forall m | 0 <= m < k :: SelectorVerdict(selectors[m], nodes[i]) == Skipped)
    && SelectorVerdict(selectors[k], nodes[i]) != Skipped
  }

  /** Resolves the application's selectors against the environment's nodes,
      with the source's nested loops, its `nodeSelected` flag and its breaks. */
  method SelectDeploymentTargets(app: Application, env: Env) returns (r: Result<seq<Node>>)
    ensures r == DeploymentTargets(app.deploymentSelector, env.nodes)
    ensures r.Ok? ==> |r.value| <= 1
  {
    var nodes := GetNodes(env);
    var selectors := app.deploymentSelector;
    var result: seq<Node> := [];
    var i := 0;
    while i < |nodes|
      invariant 0 <= i <= |nodes|
      invariant result == []
      invariant DeploymentTargets(selectors, nodes) == DeploymentTargets(selectors, nodes[i..])
    {
      var c := nodes[i];
      var nodeSelected := false;
      var j := 0;
      while j < |selectors|
        invariant 0 <= j <= |selectors|
        invariant !nodeSelected && result == []
        invariant NodeVerdict(selectors, c) == NodeVerdict(selectors[j..], c)
      {
        var selector := selectors[j];
        assert selectors[j..][1..] == selectors[j + 1..];
        if IsIdSelector(selector) {
          if c.name == selector[1..] {
            result := result + [c];
            nodeSelected := true;
            assert NodeVerdict(selectors[j..], c) == Selected;
            break;
          }
        } else if IsLabelSelector(selector) {
          var wanted := selector[1..];
          var labelFound := ContainsLabel(c.labels, wanted);
          if labelFound {
            result := result + [c];
            nodeSelected := true;
            assert NodeVerdict(selectors[j..], c) == Selected;
            break;
          }
        } else {
          return Err(InvalidSelector(selector));
        }
        j := j + 1;
      }

      if nodeSelected {
        assert result == [c];
        assert DeploymentTargets(selectors, nodes) == DeploymentTargets(selectors, nodes[i..]) == Ok(result);
        break;
      }
      assert nodes[i..][1..] == nodes[i + 1..];
      i := i + 1;
    }
    return Ok(result);
  }

  // ---------------------------------------------------------------------------
  // What the search computes

  lemma {:induction false} TargetsAtMostOne(selectors: seq<string>, nodes: seq<Node>)
    ensures DeploymentTargets(selectors, nodes).Ok? ==> |DeploymentTargets(selectors, nodes).value| <= 1
  {
    if nodes != [] && NodeVerdict(selectors, nodes[0]) == Skipped {
      TargetsAtMostOne(selectors, nodes[1..]);
    }
  }

  lemma {:induction false} NodeVerdictSkipped(selectors: seq<string>, node: Node)
    ensures NodeVerdict(selectors, node) == Skipped <==> AllSkip(selectors, node)
  {
    if selectors != [] {
      NodeVerdictSkipped(selectors[1..], node);
      if SelectorVerdict(selectors[0], node) == Skipped {
        forall m | 1 <= m < |selectors|
          ensures SelectorVerdict(selectors[m], node) == SelectorVerdict(selectors[1..][m - 1], node)
        {
        }
      }
    }
  }

  lemma {:induction false} NodeVerdictAt(selectors: seq<string>, node: Node, k: int)
    requires 0 <= k < |selectors|
    requires forall m | 0 <= m < k :: SelectorVerdict(selectors[m], node) == Skipped
    requires SelectorVerdict(selectors[k], node) != Skipped
    ensures NodeVerdict(selectors, node) == SelectorVerdict(selectors[k], node)
  {
    if k > 0 {
      NodeVerdictAt(selectors[1..], node, k - 1);
    }
  }

  /** The selector at the decision point decides the placement: the node it
      selects is the whole result, or the malformed selector is the error. */
  lemma {:induction false} DecisionPoint(selectors: seq<string>, nodes: seq<Node>, i: int, k: int)
    requires Decides(selectors, nodes, i, k)
    ensures DeploymentTargets(selectors, nodes) ==
      if SelectorVerdict(selectors[k], nodes[i]) == Selected then Ok([nodes[i]])
      else Err(InvalidSelector(selectors[k]))
  {
    if i == 0 {
      NodeVerdictAt(selectors, nodes[0], k);
    } else {
      NodeVerdictSkipped(selectors, nodes[0]);
      assert Decides(selectors, nodes[1..], i - 1, k) by {
        forall j | 0 <= j < i - 1 ensures AllSkip(selectors, nodes[1..][j]) {
          assert nodes[1..][j] == nodes[j + 1];
        }
      }
      DecisionPoint(selectors, nodes[1..], i - 1, k);
    }
  }

  /** When every selector is well formed and matches no node, nothing is
      selected and nothing is reported. */
  lemma {:induction false} NoDecision(selectors: seq<string>, nodes: seq<Node>)
    requires forall i | 0 <= i < |nodes| :: AllSkip(selectors, nodes[i])
    ensures DeploymentTargets(selectors, nodes) == Ok([])
  {
    if nodes != [] {
      NodeVerdictSkipped(selectors, nodes[0]);
      assert forall i | 0 <= i < |nodes[1..]| :: AllSkip(selectors, nodes[1..][i]) by {
        forall i | 0 <= i < |nodes[1..]| ensures AllSkip(selectors, nodes[1..][i]) {
          assert nodes[1..][i] == nodes[i + 1];
        }
      }
      NoDecision(selectors, nodes[1..]);
    }
  }

  lemma {:induction false} FirstNotSkipped(selectors: seq<string>, node: Node) returns (k: int)
    requires !AllSkip(selectors, node)
    ensures 0 <= k < |selectors|
    ensures forall m | 0 <= m < k :: SelectorVerdict(selectors[m], node) == Skipped
    ensures SelectorVerdict(selectors[k], node) != Skipped
  {
    if SelectorVerdict(selectors[0], node) != Skipped {
      k := 0;
    } else {
      assert !AllSkip(selectors[1..], node) by {
        var m :| 0 <= m < |selectors| && SelectorVerdict(selectors[m], node) != Skipped;
        assert selectors[1..][m - 1] == selectors[m];
      }
      var k' := FirstNotSkipped(selectors[1..], node);
      k := k' + 1;
      forall m | 1 <= m < k ensures SelectorVerdict(selectors[m], node) == Skipped {
        assert selectors[m] == selectors[1..][m - 1];
      }
    }
  }

  /** Unless every node is skipped by every selector, the search has a
      decision point. */
  lemma {:induction false} DecisionExists(selectors: seq<string>, nodes: seq<Node>) returns (i: int, k: int)
    requires exists j | 0 <= j < |nodes| :: !AllSkip(selectors, nodes[j])
    ensures Decides(selectors, nodes, i, k)
  {
    if !AllSkip(selectors, nodes[0]) {
      i := 0;
      k := FirstNotSkipped(selectors, nodes[0]);
    } else {
      assert exists j | 0 <= j < |nodes[1..]| :: !AllSkip(selectors, nodes[1..][j]) by {
        var j :| 0 <= j < |nodes| && !AllSkip(selectors, nodes[j]);
        assert nodes[1..][j - 1] == nodes[j];
      }
      var i', k' := DecisionExists(selectors, nodes[1..]);
      i, k := i' + 1, k';
      forall j | 0 <= j < i ensures AllSkip(selectors, nodes[j]) {
        if j > 0 {
          assert nodes[j] == nodes[1..][j - 1];
        }
      }
    }
  }

  /** An error is reported exactly when the search reaches a malformed
      selector before any selector picks a node; a malformed selector placed
      after one that picks the first node is never looked at. */
  lemma ErrorIffMalformedReached(selectors: seq<string>, nodes: seq<Node>)
    ensures DeploymentTargets(selectors, nodes).Err? <==>
      exists i, k :: Decides(selectors, nodes, i, k) && SelectorVerdict(selectors[k], nodes[i]).Rejected?
  {
    if exists j | 0 <= j < |nodes| :: !AllSkip(selectors, nodes[j]) {
      var i, k := DecisionExists(selectors, nodes);
      DecisionPoint(selectors, nodes, i, k);
      forall i', k' | Decides(selectors, nodes, i', k')
        ensures SelectorVerdict(selectors[k'], nodes[i'])  == SelectorVerdict(selectors[k], nodes[i])
      {
        DecisionPoint(selectors, nodes, i', k');
      }
    } else {
      NoDecision(selectors, nodes);
    }
  }

  /** A placed node is picked by at least one selector, and every node before
      it is skipped by every selector. */
  lemma PlacedNodeIsFirstPicked(selectors: seq<string>, nodes: seq<Node>, n: Node)
    requires DeploymentTargets(selectors, nodes) == Ok([n])
    ensures exists i, k ::
      Decides(selectors, nodes, i, k) && nodes[i] == n && SelectorVerdict(selectors[k], n) == Selected
  {
    if exists j | 0 <= j < |nodes| :: !AllSkip(selectors, nodes[j]) {
      var i, k := DecisionExists(selectors, nodes);
      DecisionPoint(selectors, nodes, i, k);
    } else {
      NoDecision(selectors, nodes);
    }
  }

  /** No nodes, or no selectors: nothing is placed and nothing is reported. */
  lemma NothingToSearch(selectors: seq<string>, nodes: seq<Node>)
    requires nodes == [] || selectors == []
    ensures DeploymentTargets(selectors, nodes) == Ok([])
  {
    NoDecision(selectors, nodes);
  }
}
