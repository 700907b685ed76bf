/** Accessibility-tree utilities (src/utils/accessibility.ts): normalising a
    raw snapshot, a filtered pre-order search and a pre-order issue check. */
module Accessibility {
  import opened Common
  import opened Text

  /** A node of the raw snapshot: every field may be missing (missing
      children are an empty list, which normalises the same way). */
  datatype RawNode = RawNode(
    role: Option<string>,
    name: Option<string>,
    value: Option<string>,
    description: Option<string>,
    level: Option<int>,
    checked: Option<bool>,
    pressed: Option<bool>,
    expanded: Option<bool>,
    disabled: Option<bool>,
    focused: Option<bool>,
    children: seq<RawNode>)

  /** A normalised node: role and name always present. */
  datatype Node = Node(
    role: string,
    name: string,
    value: Option<string>,
    description: Option<string>,
    level: Option<int>,
    checked: Option<bool>,
    pressed: Option<bool>,
    expanded: Option<bool>,
    disabled: Option<bool>,
    focused: Option<bool>,
    children: seq<Node>)

  /** `processNode`: a missing or empty role becomes `unknown`, a missing or
      empty name the empty string, a description is kept only when non-empty,
      every other optional field is kept as it is, and the children are
      normalised in order. */
  function ProcessNode(n: RawNode): (r: Node)
    ensures r.role == (if Truthy(n.role) then n.role.value else "unknown") && r.role != ""
    ensures r.name == n.name.GetOr("")
    ensures r.description.Some? <==> Truthy(n.description)
    ensures r.description.Some? ==> r.description == n.description
    ensures r.value == n.value && r.level == n.level && r.checked == n.checked && r.pressed == n.pressed
    ensures r.expanded == n.expanded && r.disabled == n.disabled && r.focused == n.focused
    ensures |r.children| == |n.children|
    decreases n
  {
    var children := n.children;
    Node(
      if Truthy(n.role) then n.role.value else "unknown",
      n.name.GetOr(""),
      n.value,
      if Truthy(n.description) then n.description else None,
      n.level, n.checked, n.pressed, n.expanded, n.disabled, n.focused,
      seq(|children|, i requires 0 <= i < |children| => ProcessNode(children[i])))
  }

  /** Each child is normalised in place. */
  lemma ProcessNodeChildren(n: RawNode, i: nat)
    requires i < |n.children|
    ensures ProcessNode(n).children[i] == ProcessNode(n.children[i])
  {
  }

  /** The nodes of a raw tree, counted. */
  function RawSize(n: RawNode): nat
    decreases n, 1
  {
    1 + RawSizeAll(n.children)
  }

  function RawSizeAll(ns: seq<RawNode>): nat
    decreases ns, 0
  {
    if ns == [] then 0 else RawSize(ns[0]) + RawSizeAll(ns[1..])
  }

  /** The nodes of a tree in pre-order. */
  function Flatten(n: Node): (s: seq<Node>)
    ensures |s| > 0 && s[0] == n
    decreases n, 1
  {
    [n] + FlattenAll(n.children)
  }

  function FlattenAll(ns: seq<Node>): seq<Node>
    decreases ns, 0
  {
    if ns == [] then [] else Flatten(ns[0]) + FlattenAll(ns[1..])
  }

  /** Normalising keeps the shape: the tree has as many nodes as the snapshot. */
  lemma {:induction false} ProcessNodeKeepsSize(n: RawNode)
    ensures |Flatten(ProcessNode(n))| == RawSize(n)
    decreases n, 1
  {
    ProcessAllKeepsSize(n.children);
    assert ProcessNode(n).children == ProcessAll(n.children);
  }

  function ProcessAll(ns: seq<RawNode>): (r: seq<Node>)
    ensures |r| == |ns| && forall i :: 0 <= i < |ns| ==> r[i] == ProcessNode(ns[i])
  {
    seq(|ns|, i requires 0 <= i < |ns| => ProcessNode(ns[i]))
  }

  lemma {:induction false} ProcessAllKeepsSize(ns: seq<RawNode>)
    ensures |FlattenAll(ProcessAll(ns))| == RawSizeAll(ns)
    decreases ns, 0
  {
    if ns != [] {
      ProcessNodeKeepsSize(ns[0]);
      ProcessAllKeepsSize(ns[1..]);
      assert ProcessAll(ns)[1..] == ProcessAll(ns[1..]);
    }
  }

  /** A node passes the search filters: each filter is ignored when missing or
      empty; the role must match exactly, the name must contain the filter. */
  predicate Selected(n: Node, role: Option<string>, name: Option<string>) {
    (!Truthy(role) || n.role == role.value) && (!Truthy(name) || Contains(n.name, name.value))
  }

  /** The search filter as a function on nodes. */
  function Keep(role: Option<string>, name: Option<string>): Node -> bool {
    n => Selected(n, role, name)
  }

  /** The nodes of `ns` that `keep` accepts, in order. */
  function Filtered(ns: seq<Node>, keep: Node -> bool): (r: seq<Node>)
    ensures |r| <= |ns|
  {
    if ns == [] then []
    else (if keep(ns[0]) then [ns[0]] else []) + Filtered(ns[1..], keep)
  }

  /** The filter keeps exactly the accepted nodes. */
  lemma {:induction false} FilteredSelected(ns: seq<Node>, keep: Node -> bool)
    ensures forall x :: x in Filtered(ns, keep) <==> x in ns && keep(x)
  {
    if ns != [] {
      FilteredSelected(ns[1..], keep);
    }
  }

  lemma {:induction false} FilteredAppend(a: seq<Node>, b: seq<Node>, keep: Node -> bool)
    ensures Filtered(a + b, keep) == Filtered(a, keep) + Filtered(b, keep)
  {
    if a == [] {
      assert a + b == b;
    } else {
      var ab := a + b;
      assert ab[0] == a[0];
      assert ab[1..] == a[1..] + b;
      FilteredAppend(a[1..], b, keep);
      var head := if keep(a[0]) then [a[0]] else [];
      calc {
        Filtered(ab, keep);
        head + Filtered(a[1..] + b, keep);
        head + (Filtered(a[1..], keep) + Filtered(b, keep));
        (head + Filtered(a[1..], keep)) + Filtered(b, keep);
      }
    }
  }

  lemma {:induction false} FilteredAll(ns: seq<Node>, keep: Node -> bool)
    requires forall x :: x in ns ==> keep(x)
    ensures Filtered(ns, keep) == ns
  {
    if ns != [] {
      FilteredAll(ns[1..], keep);
    }
  }

  /** The search results: the selected nodes of the tree, in pre-order. */
  function Matches(n: Node, role: Option<string>, name: Option<string>): seq<Node> {
    Filtered(Flatten(n), Keep(role, name))
  }

  /** A node is found exactly when it is in the tree and passes the filters. */
  lemma MatchesExactly(n: Node, role: Option<string>, name: Option<string>)
    ensures forall x :: x in Matches(n, role, name) <==> x in Flatten(n) && Selected(x, role, name)
  {
    FilteredSelected(Flatten(n), Keep(role, name));
  }

  /** Without filters the search returns every node of the tree in pre-order. */
  lemma MatchesWithoutFilters(n: Node)
    ensures Matches(n, None, None) == Flatten(n)
    ensures Matches(n, Some(""), Some("")) == Flatten(n)
  {
    FilteredAll(Flatten(n), Keep(None, None));
    FilteredAll(Flatten(n), Keep(Some(""), Some("")));
  }

  lemma FlattenAllSnoc(ns: seq<Node>, i: nat)
    requires i < |ns|
    ensures FlattenAll(ns[..i + 1]) == FlattenAll(ns[..i]) + Flatten(ns[i])
  {
    FlattenAllAppend(ns[..i], [ns[i]]);
    assert ns[..i + 1] == ns[..i] + [ns[i]];
    assert FlattenAll([ns[i]]) == Flatten(ns[i]) + FlattenAll([]);
  }

  lemma {:induction false} FlattenAllAppend(a: seq<Node>, b: seq<Node>)
    ensures FlattenAll(a + b) == FlattenAll(a) + FlattenAll(b)
  {
    if a == [] {
      assert a + b == b;
    } else {
      assert (a + b)[0] == a[0];
      assert (a + b)[1..] == a[1..] + b;
      FlattenAllAppend(a[1..], b);
    }
  }

  /** `searchTree`: appends to `results` the selected nodes of the tree, the
      node itself first and then each child's subtree in order. */
  method SearchTree(node: Node, results: seq<Node>, role: Option<string>, name: Option<string>)
    returns (found: seq<Node>)
    ensures found == results + Matches(node, role, name)
    decreases node
  {
    ghost var head := if Selected(node, role, name) then [node] else [];
    found := results;
    if Selected(node, role, name) {
      found := found + [node];
    }
    for i := 0 to |node.children|
      invariant found == results + head + Filtered(FlattenAll(node.children[..i]), Keep(role, name))
    {
      ghost var before := Filtered(FlattenAll(node.children[..i]), Keep(role, name));
      found := SearchTree(node.children[i], found, role, name);
      SearchStep(node.children, i, role, name);
      assert results + head + before + Matches(node.children[i], role, name) ==
             results + head + (before + Matches(node.children[i], role, name));
    }
    MatchesUnfold(node, role, name);
    assert results + head + Filtered(FlattenAll(node.children[..|node.children|]), Keep(role, name)) ==
           results + (head + Filtered(FlattenAll(node.children[..|node.children|]), Keep(role, name)));
  }

  lemma SearchStep(ns: seq<Node>, i: nat, role: Option<string>, name: Option<string>)
    requires i < |ns|
    ensures Filtered(FlattenAll(ns[..i + 1]), Keep(role, name)) ==
            Filtered(FlattenAll(ns[..i]), Keep(role, name)) + Matches(ns[i], role, name)
  {
    FlattenAllSnoc(ns, i);
    FilteredAppend(FlattenAll(ns[..i]), Flatten(ns[i]), Keep(role, name));
  }

  lemma MatchesUnfold(n: Node, role: Option<string>, name: Option<string>)
    ensures Matches(n, role, name) ==
            (if Selected(n, role, name) then [n] else []) +
            Filtered(FlattenAll(n.children[..|n.children|]), Keep(role, name))
  {
    assert n.children[..|n.children|] == n.children;
    FilteredAppend([n], FlattenAll(n.children), Keep(role, name));
  }

  /** The issues one node raises: an unnamed image, button, link or form
      input raises one, every other node none. */
  function NodeIssues(n: Node): (r: seq<string>)
    ensures |r| <= 1
    ensures |r| == 1 <==> n.name == "" && n.role in {"img", "button", "link", "textbox", "checkbox", "radio", "combobox"}
    ensures n.name == "" && n.role == "img" ==> r == ["Image without alt text"]
    ensures n.name == "" && n.role == "button" ==> r == ["Button without accessible name"]
    ensures n.name == "" && n.role == "link" ==> r == ["Link without text"]
    ensures n.name == "" && n.role in {"textbox", "checkbox", "radio", "combobox"} ==>
              r == ["Form input (" + n.role + ") without label"]
  {
    if n.name != "" then []
    else if n.role == "img" then ["Image without alt text"]
    else if n.role == "button" then ["Button without accessible name"]
    else if n.role == "link" then ["Link without text"]
    else if n.role in {"textbox", "checkbox", "radio", "combobox"} then ["Form input (" + n.role + ") without label"]
    else []
  }

  function IssuesOf(ns: seq<Node>): (r: seq<string>)
    ensures |r| <= |ns|
  {
    if ns == [] then [] else NodeIssues(ns[0]) + IssuesOf(ns[1..])
  }

  lemma {:induction false} IssuesOfAppend(a: seq<Node>, b: seq<Node>)
    ensures IssuesOf(a + b) == IssuesOf(a) + IssuesOf(b)
  {
    if a == [] {
      assert a + b == b;
    } else {
      assert (a + b)[0] == a[0];
      assert (a + b)[1..] == a[1..] + b;
      IssuesOfAppend(a[1..], b);
    }
  }

  /** A tree whose nodes are all named raises no issue. */
  lemma {:induction false} NamedTreeHasNoIssues(ns: seq<Node>)
    requires forall x :: x in ns ==> x.name != ""
    ensures IssuesOf(ns) == []
  {
    if ns != [] {
      NamedTreeHasNoIssues(ns[1..]);
    }
  }

  /** `checkForIssues`: appends to `issues` the issues of the node and then of
      each child's subtree in order; at most one per node. */
  method CheckForIssues(node: Node, issues: seq<string>) returns (found: seq<string>)
    ensures found == issues + IssuesOf(Flatten(node))
    ensures |found| <= |issues| + |Flatten(node)|
    decreases node
  {
    ghost var own := issues + NodeIssues(node);
    found := issues + NodeIssues(node);
    for i := 0 to |node.children|
      invariant found == own + IssuesOf(FlattenAll(node.children[..i]))
    {
      found := CheckForIssues(node.children[i], found);
      IssuesStep(own, node.children, i);
    }
    IssuesUnfold(issues, node);
    IssuesBound(Flatten(node));
  }

  lemma IssuesStep(own: seq<string>, ns: seq<Node>, i: nat)
    requires i < |ns|
    ensures own + IssuesOf(FlattenAll(ns[..i])) + IssuesOf(Flatten(ns[i])) == own + IssuesOf(FlattenAll(ns[..i + 1]))
  {
    FlattenAllSnoc(ns, i);
    IssuesOfAppend(FlattenAll(ns[..i]), Flatten(ns[i]));
  }

  lemma IssuesUnfold(issues: seq<string>, n: Node)
    ensures issues + NodeIssues(n) + IssuesOf(FlattenAll(n.children[..|n.children|])) == issues + IssuesOf(Flatten(n))
  {
    assert n.children[..|n.children|] == n.children;
    IssuesOfAppend([n], FlattenAll(n.children));
    assert IssuesOf([n]) == NodeIssues(n) + IssuesOf([]);
  }

  lemma IssuesBound(ns: seq<Node>)
    ensures |IssuesOf(ns)| <= |ns|
  {
  }

  const NoIssues := "No accessibility issues found"

  /** The report text: a fixed sentence when there are no issues, otherwise
      their count followed by one issue per line. */
  function Report(issues: seq<string>): (text: string)
    ensures text == NoIssues <==> issues == []
    ensures issues != [] ==> text == "Found " + IntToString(|issues|) + " accessibility issues:\n" + Join(issues, "\n")
    ensures issues != [] ==> forall k :: 0 <= k < |issues| ==> Contains(text, issues[k])
  {
    if issues == [] then NoIssues
    else
      var header := "Found " + IntToString(|issues|) + " accessibility issues:\n";
      var body := Join(issues, "\n");
      assert (header + body)[0] == 'F';
      forall k | 0 <= k < |issues|
        ensures Contains(header + body, issues[k])
      {
        JoinContainsParts(issues, "\n", k);
        ContainsAfterPrefix(header, body, issues[k]);
      }
      header + body
  }

  /** `getAccessibilityTree`: the normalised snapshot, or an error when the
      driver has none. */
  function AccessibilityTree(snapshot: Option<RawNode>): (r: Result<Node>)
    ensures r.Err? <==> snapshot.None?
    ensures r.Err? ==> r.message == "Could not get accessibility snapshot"
    ensures r.Ok? ==> r.value == ProcessNode(snapshot.value) && |Flatten(r.value)| == RawSize(snapshot.value)
  {
    match snapshot
    case None => Err("Could not get accessibility snapshot")
    case Some(raw) =>
      ProcessNodeKeepsSize(raw);
      Ok(ProcessNode(raw))
  }

  /** `findAccessibleElements` on the snapshot the driver returns. */
  method FindAccessibleElements(snapshot: Option<RawNode>, role: Option<string>, name: Option<string>)
    returns (r: Result<seq<Node>>)
    ensures snapshot.None? ==> r == Err("Could not get accessibility snapshot")
    ensures snapshot.Some? ==> r == Ok(Matches(ProcessNode(snapshot.value), role, name))
  {
    var tree := AccessibilityTree(snapshot);
    if tree.Err? {
      return Err(tree.message);
    }
    var results := SearchTree(tree.value, [], role, name);
    assert results == Matches(tree.value, role, name);
    return Ok(results);
  }

  /** `getAccessibilityReport` on the snapshot the driver returns. */
  method AccessibilityReport(snapshot: Option<RawNode>) returns (r: Result<string>)
    ensures snapshot.None? ==> r == Err("Could not get accessibility snapshot")
    ensures snapshot.Some? ==> r == Ok(Report(IssuesOf(Flatten(ProcessNode(snapshot.value)))))
  {
    var tree := AccessibilityTree(snapshot);
    if tree.Err? {
      return Err(tree.message);
    }
    var issues := CheckForIssues(tree.value, []);
    assert issues == IssuesOf(Flatten(tree.value));
    return Ok(Report(issues));
  }
}
