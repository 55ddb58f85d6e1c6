/** The layout tree Sway returns for GET_TREE, and the search for the focused
    window in it. Geometry fields (rectangles, border, layout, percent, …) are
    decoded by the client but never read, so they are not modelled. */
module SwayTree {
  import opened Wrappers

  datatype WindowProperties = WindowProperties(
    windowClass: Option<string>,
    instance: Option<string>,
    title: Option<string>,
    transientFor: Option<int>)

  datatype Node = Node(
    id: int,
    name: Option<string>,
    nodeType: string,
    urgent: bool,
    focused: bool,
    focus: seq<int>,
    nodes: seq<Node>,
    floatingNodes: seq<Node>,
    sticky: bool,
    representation: Option<string>,
    appId: Option<string>,
    windowProperties: Option<WindowProperties>,
    pid: Option<int>)

  /** A node the search accepts: focused and carrying window properties. */
  predicate IsFocusedWindow(n: Node) {
    n.focused && n.windowProperties.Some?
  }

  /** All nodes of the tree in depth-first pre-order: the node itself, then
      its tiled children's subtrees, then its floating children's. */
  function PreOrder(n: Node): seq<Node> {
    [n] + PreOrderAll(n.nodes) + PreOrderAll(n.floatingNodes)
  }

  function PreOrderAll(ns: seq<Node>): seq<Node> {
    if ns == [] then [] else PreOrder(ns[0]) + PreOrderAll(ns[1..])
  }

  /** `findFocusedNode`: the node itself if it qualifies, else the first hit
      among the tiled children, else the first among the floating ones.
      Any hit qualifies and lies in the searched tree. */
  function FindFocusedNode(n: Node): (r: Option<Node>)
    ensures r.Some? ==> IsFocusedWindow(r.value) && r.value in PreOrder(n)
  {
    if IsFocusedWindow(n) then Some(n)
    else match FindInChildren(n.nodes)
      case Some(found) => Some(found)
      case None => FindInChildren(n.floatingNodes)
  }

  /** The loop over one child list: the first child whose subtree holds a hit. */
  function FindInChildren(ns: seq<Node>): (r: Option<Node>)
    ensures r.Some? ==> IsFocusedWindow(r.value) && r.value in PreOrderAll(ns)
  {
    if ns == [] then None
    else match FindFocusedNode(ns[0])
      case Some(found) => Some(found)
      case None => FindInChildren(ns[1..])
  }

  /** The first element of `s` that qualifies, if any: the reference
      definition of "first match wins". */
  function FirstFocused(s: seq<Node>): Option<Node> {
    if s == [] then None
    else if IsFocusedWindow(s[0]) then Some(s[0])
    else FirstFocused(s[1..])
  }

  lemma {:induction false} FirstFocusedAppend(a: seq<Node>, b: seq<Node>)
    ensures FirstFocused(a + b) == if FirstFocused(a).Some? then FirstFocused(a) else FirstFocused(b)
  {
    if a != [] {
      assert (a + b)[1..] == a[1..] + b;
      FirstFocusedAppend(a[1..], b);
    } else {
      assert a + b == b;
    }
  }

  /** The search returns exactly the first qualifying node of the pre-order
      listing, and nothing when none qualifies. */
  lemma {:induction false} FindFocusedIsFirstInPreOrder(n: Node)
    ensures FindFocusedNode(n) == FirstFocused(PreOrder(n))
  {
    FindInChildrenIsFirst(n.nodes);
    FindInChildrenIsFirst(n.floatingNodes);
    FirstFocusedAppend(PreOrderAll(n.nodes), PreOrderAll(n.floatingNodes));
    assert PreOrder(n) == [n] + (PreOrderAll(n.nodes) + PreOrderAll(n.floatingNodes));
    assert ([n] + (PreOrderAll(n.nodes) + PreOrderAll(n.floatingNodes)))[1..]
      == PreOrderAll(n.nodes) + PreOrderAll(n.floatingNodes);
  }

  lemma {:induction false} FindInChildrenIsFirst(ns: seq<Node>)
    ensures FindInChildren(ns) == FirstFocused(PreOrderAll(ns))
    decreases ns
  {
    if ns != [] {
      FindFocusedIsFirstInPreOrder(ns[0]);
      FindInChildrenIsFirst(ns[1..]);
      FirstFocusedAppend(PreOrder(ns[0]), PreOrderAll(ns[1..]));
    }
  }

  /** The reference definition's meaning: a result qualifies and sits at some
      position of the listing with no qualifying node before it; no result
      means no node of the listing qualifies. */
  lemma {:induction false} FirstFocusedSpec(s: seq<Node>)
    ensures FirstFocused(s).None? <==> forall i :: 0 <= i < |s| ==> !IsFocusedWindow(s[i])
    ensures FirstFocused(s).Some? ==>
      exists i :: (0 <= i < |s| && s[i] == FirstFocused(s).value
        && IsFocusedWindow(s[i]) && forall j :: 0 <= j < i ==> !IsFocusedWindow(s[j]))
  {
    if s != [] && !IsFocusedWindow(s[0]) {
      FirstFocusedSpec(s[1..]);
      if FirstFocused(s).Some? {
        var i :| 0 <= i < |s[1..]| && s[1..][i] == FirstFocused(s[1..]).value
          && IsFocusedWindow(s[1..][i]) && forall j :: 0 <= j < i ==> !IsFocusedWindow(s[1..][j]);
        assert s[i + 1] == FirstFocused(s).value;
        assert forall j :: 0 <= j < i + 1 ==> !IsFocusedWindow(s[j]) by {
          forall j | 0 <= j < i + 1 ensures !IsFocusedWindow(s[j]) {
            if j > 0 { assert s[j] == s[1..][j - 1]; }
          }
        }
      } else {
        forall i | 0 <= i < |s| ensures !IsFocusedWindow(s[i]) {
          if i > 0 { assert s[i] == s[1..][i - 1]; }
        }
      }
    } else if s != [] {
      assert s[0] == FirstFocused(s).value;
    }
  }

  /** Soundness, completeness and first-match of the search, stated over the
      pre-order listing of the tree: nothing is found exactly when no node
      qualifies, and what is found is the earliest qualifying node. */
  lemma FindFocusedNodeCharacterised(n: Node)
    ensures FindFocusedNode(n).None? <==>
      forall i :: 0 <= i < |PreOrder(n)| ==> !IsFocusedWindow(PreOrder(n)[i])
    ensures FindFocusedNode(n).Some? ==>
      exists i :: (0 <= i < |PreOrder(n)| && PreOrder(n)[i] == FindFocusedNode(n).value
        && forall j :: 0 <= j < i ==> !IsFocusedWindow(PreOrder(n)[j]))
  {
    FindFocusedIsFirstInPreOrder(n);
    FirstFocusedSpec(PreOrder(n));
  }

  /** A qualifying node is returned as is, whatever its children hold. */
  lemma FocusedRootWins(n: Node)
    requires IsFocusedWindow(n)
    ensures FindFocusedNode(n) == Some(n)
  {
  }

  /** Tiled children are searched before floating ones: a hit among the tiled
      subtrees is returned even when a floating subtree holds one too. */
  lemma TiledBeforeFloating(n: Node)
    requires !IsFocusedWindow(n)
    requires FindInChildren(n.nodes).Some?
    ensures FindFocusedNode(n) == FindInChildren(n.nodes)
  {
  }
}
