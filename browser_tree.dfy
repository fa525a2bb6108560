/** The lazy tree root: it remembers the root it was last rendered for, the
    children fetched for it and whether they have arrived. Changing the
    root id resets the cache; while nothing has been fetched every render
    asks for the root's children; once the answer has latched, renders show
    exactly those children and ask for nothing. */
module BrowserTree {
  import opened UaTypes

  /** The colour theme handed in by the host; only its presence matters. */
  datatype Theme = Theme(bg2: string)

  /** The properties the panel renders the tree with. */
  datatype BrowserProps = BrowserProps(rootNodeId: Node, ignoreRootNode: bool, closeOnSelect: bool)

  /** What the tree asks of its host, in order: a `browse` of a node's
      children, a forwarded selection, or a request to close. */
  datatype Notification =
    | BrowseIssued(nodeId: string)
    | NodeSelected(node: Node, browsePath: seq<QualifiedName>)
    | CloseRequested

  /** The placeholder root the tree starts with: an empty id and node class -1. */
  const InitialRoot := Node("", QualifiedName("", ""), "", false, -1)

  class Browser {
    var rootNode: Node
    var children: seq<Node>
    var fetchedChildren: bool
    var theme: Option<Theme>
    /** Every notification sent to the host so far, in order. */
    var outbox: seq<Notification>

    /** Children are only ever held once they have been fetched. */
    ghost predicate Valid()
      reads this
    {
      !fetchedChildren ==> children == []
    }

    constructor ()
      ensures Valid()
      ensures rootNode == InitialRoot && rootNode.nodeId == ""
      ensures children == [] && !fetchedChildren && theme.None? && outbox == []
    {
      rootNode := InitialRoot;
      children, fetchedChildren, theme, outbox := [], false, None, [];
    }

    /** `handleClose`: the close control asks the host to close the tree. */
    method HandleClose()
      modifies this`outbox
      ensures outbox == old(outbox) + [CloseRequested]
    {
      outbox := outbox + [CloseRequested];
    }

    /** `nodeSelect`: forwards the selection, then asks the host to close
        the tree exactly when `closeOnSelect` is set. */
    method NodeSelect(node: Node, browsePath: seq<QualifiedName>, props: BrowserProps)
      modifies this`outbox
      ensures outbox == old(outbox) + [NodeSelected(node, browsePath)]
                        + (if props.closeOnSelect then [CloseRequested] else [])
    {
      outbox := outbox + [NodeSelected(node, browsePath)];
      if props.closeOnSelect {
        outbox := outbox + [CloseRequested];
      }
    }

    /** `onTheme`: the theme is written once, by the first non-null theme. */
    method OnTheme(incoming: Option<Theme>)
      modifies this`theme
      ensures old(theme).Some? ==> theme == old(theme)
      ensures old(theme).None? ==> theme == incoming
    {
      if theme.None? && incoming.Some? {
        theme := incoming;
      }
    }

    /** `render` followed by `renderNodes`. The reset of a root whose id
        differs from the stored one is a `setState` inside `render`, so it
        only takes effect after this render: `renderNodes` still reads the
        state as it was, with the new root. Either the root alone is shown,
        or, while nothing has been fetched, a browse of the new root is
        issued and nothing is shown, or the children held so far are shown
        in order. Then the reset (if any) is applied. */
    method Render(props: BrowserProps) returns (shown: seq<Node>)
      requires Valid()
      modifies this`rootNode, this`children, this`fetchedChildren, this`outbox
      ensures Valid()
      ensures var reset := old(rootNode).nodeId != props.rootNodeId.nodeId;
        && rootNode == (if reset then props.rootNodeId else old(rootNode))
        && children == (if reset then [] else old(children))
        && fetchedChildren == (!reset && old(fetchedChildren))
      ensures rootNode.nodeId == props.rootNodeId.nodeId
      ensures !props.ignoreRootNode ==> shown == [props.rootNodeId] && outbox == old(outbox)
      ensures props.ignoreRootNode ==> shown == old(children)
      ensures props.ignoreRootNode ==>
        outbox == old(outbox) + (if old(fetchedChildren) then [] else [BrowseIssued(props.rootNodeId.nodeId)])
    {
      shown := RenderNodes(props.rootNodeId, props.ignoreRootNode);
      if rootNode.nodeId != props.rootNodeId.nodeId {
        children, fetchedChildren, rootNode := [], false, props.rootNodeId;
      }
    }

    /** `renderNodes` on the current cache state. */
    method RenderNodes(root: Node, ignoreRoot: bool) returns (shown: seq<Node>)
      modifies this`outbox
      ensures !ignoreRoot ==> shown == [root] && outbox == old(outbox)
      ensures ignoreRoot && !fetchedChildren ==>
        shown == [] && outbox == old(outbox) + [BrowseIssued(root.nodeId)]
      ensures ignoreRoot && fetchedChildren ==> shown == children && outbox == old(outbox)
    {
      if !ignoreRoot {
        shown := [root];
      } else if !fetchedChildren {
        outbox := outbox + [BrowseIssued(root.nodeId)];
        shown := [];
      } else {
        shown := children;
      }
    }

    /** The browse issued by a render has answered: its children latch. */
    method OnBrowseResponse(response: seq<Node>)
      modifies this`children, this`fetchedChildren
      ensures Valid()
      ensures children == response && fetchedChildren
    {
      children, fetchedChildren := response, true;
    }
  }

  /** `k` browse requests for the same node, as the host sees them. */
  function Browses(nodeId: string, k: nat): seq<Notification>
  {
    if k == 0 then [] else Browses(nodeId, k - 1) + [BrowseIssued(nodeId)]
  }

  /** A fresh tree rendered `before` times for the same root (at least
      once, so that a browse is outstanding), then answered with `response`,
      then rendered `after` more times. Every render before the answer
      issues a browse of the root and shows nothing, since the fetched flag
      is still unset; once the answer has latched no render issues another,
      and each shows exactly the answer. Returns the notifications sent and
      what each render showed, before and after the answer. */
  method FetchOnce(props: BrowserProps, before: nat, response: seq<Node>, after: nat)
    returns (sent: seq<Notification>, shownBefore: seq<seq<Node>>, shownAfter: seq<seq<Node>>)
    requires props.ignoreRootNode && before >= 1
    ensures |sent| == before
    ensures forall i :: 0 <= i < |sent| ==> sent[i] == BrowseIssued(props.rootNodeId.nodeId)
    ensures |shownBefore| == before && forall i :: 0 <= i < |shownBefore| ==> shownBefore[i] == []
    ensures |shownAfter| == after && forall i :: 0 <= i < |shownAfter| ==> shownAfter[i] == response
  {
    var tree := new Browser();
    var shown := tree.Render(props);
    shownBefore := [shown];
    while |shownBefore| < before
      invariant 1 <= |shownBefore| <= before
      invariant forall i :: 0 <= i < |shownBefore| ==> shownBefore[i] == []
      invariant tree.Valid() && !tree.fetchedChildren && tree.children == []
      invariant tree.rootNode.nodeId == props.rootNodeId.nodeId
      invariant tree.outbox == Browses(props.rootNodeId.nodeId, |shownBefore|)
    {
      shown := tree.Render(props);
      shownBefore := shownBefore + [shown];
    }
    tree.OnBrowseResponse(response);
    shownAfter := [];
    while |shownAfter| < after
      invariant |shownAfter| <= after
      invariant forall i :: 0 <= i < |shownAfter| ==> shownAfter[i] == response
      invariant tree.Valid() && tree.fetchedChildren && tree.children == response
      invariant tree.rootNode.nodeId == props.rootNodeId.nodeId
      invariant tree.outbox == Browses(props.rootNodeId.nodeId, before)
    {
      shown := tree.Render(props);
      shownAfter := shownAfter + [shown];
    }
    sent := tree.outbox;
    BrowsesAllSame(props.rootNodeId.nodeId, before);
  }

  /** `Browses` is `k` copies of the same browse request. */
  lemma {:induction false} BrowsesAllSame(nodeId: string, k: nat)
    ensures |Browses(nodeId, k)| == k
    ensures forall i :: 0 <= i < k ==> Browses(nodeId, k)[i] == BrowseIssued(nodeId)
  {
    if k > 0 {
      BrowsesAllSame(nodeId, k - 1);
    }
  }

  /** A tree whose children have latched for one root is rendered twice for
      a root with another id. The first render still shows the old children
      and issues nothing, because the reset only takes effect after it; the
      second browses the new root and shows nothing. The tree is then reset
      to the new root and waits for its answer. */
  method RootChange(tree: Browser, props: BrowserProps) returns (firstShown: seq<Node>, secondShown: seq<Node>)
    requires tree.Valid() && tree.fetchedChildren
    requires props.ignoreRootNode && tree.rootNode.nodeId != props.rootNodeId.nodeId
    modifies tree`rootNode, tree`children, tree`fetchedChildren, tree`outbox
    ensures firstShown == old(tree.children)
    ensures secondShown == []
    ensures tree.outbox == old(tree.outbox) + [BrowseIssued(props.rootNodeId.nodeId)]
    ensures tree.Valid() && tree.rootNode == props.rootNodeId
    ensures tree.children == [] && !tree.fetchedChildren
    ensures tree.theme == old(tree.theme)
  {
    firstShown := tree.Render(props);
    secondShown := tree.Render(props);
  }
}
