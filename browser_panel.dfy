/** The browser panel: it hands the lazy tree a `browse` function, removes
    duplicate browse results, and on a selection looks up the node's type,
    resolves its dashboard, updates the shared location, and in
    configuration mode collects the node's capability targets. */
module BrowserPanel {
  import opened UaTypes
  import DashboardResolver

  // ---------------------------------------------------------------------
  // Removing duplicate browse results

  /** The node ids occurring in a browse result. */
  function Ids(s: seq<Node>): set<string>
  {
    set i | 0 <= i < |s| :: s[i].nodeId
  }

  /** No two elements share a node id. */
  ghost predicate DistinctIds(s: seq<Node>)
  {
    forall i, j :: 0 <= i < j < |s| ==> s[i].nodeId != s[j].nodeId
  }

  /** Element `i` is the first one carrying its node id. */
  ghost predicate FirstOccurrence(s: seq<Node>, i: int)
    requires 0 <= i < |s|
  {
    forall j :: 0 <= j < i ==> s[j].nodeId != s[i].nodeId
  }

  /** The stable filter on `nodeId` in which the first occurrence wins: an
      element is kept exactly when no earlier element carries its id. */
  function Deduplicated(s: seq<Node>): (r: seq<Node>)
    ensures |r| <= |s|
  {
    if s == [] then []
    else
      var init := s[..|s| - 1];
      Deduplicated(init) + (if s[|s| - 1].nodeId in Ids(init) then [] else [s[|s| - 1]])
  }

  /** The positions of the input that `Deduplicated` keeps. */
  ghost function KeptIndices(s: seq<Node>): seq<nat>
  {
    if s == [] then []
    else
      var init := s[..|s| - 1];
      KeptIndices(init) + (if s[|s| - 1].nodeId in Ids(init) then [] else [|s| - 1])
  }

  lemma IdsAppend(s: seq<Node>, t: seq<Node>)
    ensures Ids(s + t) == Ids(s) + Ids(t)
  {
    var u := s + t;
    forall x | x in Ids(u) ensures x in Ids(s) + Ids(t) {
      var i :| 0 <= i < |u| && u[i].nodeId == x;
      if i >= |s| { assert t[i - |s|].nodeId == x; }
    }
    forall x | x in Ids(s) + Ids(t) ensures x in Ids(u) {
      if x in Ids(s) {
        var i :| 0 <= i < |s| && s[i].nodeId == x;
        assert u[i].nodeId == x;
      } else {
        var i :| 0 <= i < |t| && t[i].nodeId == x;
        assert u[|s| + i].nodeId == x;
      }
    }
  }

  /** Every node id of the input survives deduplication, and no other. */
  lemma {:induction false} DeduplicatedIds(s: seq<Node>)
    ensures Ids(Deduplicated(s)) == Ids(s)
  {
    if s != [] {
      var init, last := s[..|s| - 1], s[|s| - 1];
      assert s == init + [last];
      DeduplicatedIds(init);
      IdsAppend(init, [last]);
      IdsAppend(Deduplicated(init), if last.nodeId in Ids(init) then [] else [last]);
      assert Ids([last]) == {last.nodeId};
    }
  }

  /** No two elements of a deduplicated result share a node id. */
  lemma {:induction false} DeduplicatedDistinct(s: seq<Node>)
    ensures DistinctIds(Deduplicated(s))
  {
    if s != [] {
      var init, last := s[..|s| - 1], s[|s| - 1];
      DeduplicatedDistinct(init);
      DeduplicatedIds(init);
      var d := Deduplicated(init);
      if last.nodeId !in Ids(init) {
        forall i | 0 <= i < |d| ensures d[i].nodeId != last.nodeId {
          assert d[i].nodeId in Ids(d);
        }
      }
    }
  }

  /** A result whose node ids are already distinct is left as it is. */
  lemma {:induction false} DeduplicatedOfDistinct(s: seq<Node>)
    requires DistinctIds(s)
    ensures Deduplicated(s) == s
  {
    if s != [] {
      var init, last := s[..|s| - 1], s[|s| - 1];
      assert DistinctIds(init);
      DeduplicatedOfDistinct(init);
      assert last.nodeId !in Ids(init) by {
        forall x | x in Ids(init) ensures x != last.nodeId {
          var j :| 0 <= j < |init| && init[j].nodeId == x;
          assert s[j] == init[j];
        }
      }
      assert s == init + [last];
    }
  }

  /** Deduplicating twice is the same as deduplicating once. */
  lemma DeduplicatedIdempotent(s: seq<Node>)
    ensures Deduplicated(Deduplicated(s)) == Deduplicated(s)
  {
    DeduplicatedDistinct(s);
    DeduplicatedOfDistinct(Deduplicated(s));
  }

  /** The deduplicated result is exactly the first occurrences of the input,
      in input order: element `k` of the result is the input element at
      position `KeptIndices(s)[k]`, those positions increase, each is the
      first occurrence of its id, and every first occurrence is among them. */
  lemma {:induction false} DeduplicatedKeepsFirstOccurrences(s: seq<Node>)
    ensures |KeptIndices(s)| == |Deduplicated(s)|
    ensures forall k :: 0 <= k < |KeptIndices(s)| ==>
      KeptIndices(s)[k] < |s| && Deduplicated(s)[k] == s[KeptIndices(s)[k]]
      && FirstOccurrence(s, KeptIndices(s)[k])
    ensures forall k, l :: 0 <= k < l < |KeptIndices(s)| ==> KeptIndices(s)[k] < KeptIndices(s)[l]
    ensures forall i :: 0 <= i < |s| && FirstOccurrence(s, i) ==> i in KeptIndices(s)
  {
    if s != [] {
      var init, last := s[..|s| - 1], s[|s| - 1];
      DeduplicatedKeepsFirstOccurrences(init);
      var idx, d := KeptIndices(init), Deduplicated(init);
      forall k | 0 <= k < |idx| ensures FirstOccurrence(s, idx[k]) {
        assert FirstOccurrence(init, idx[k]);
      }
      if last.nodeId !in Ids(init) {
        forall j | 0 <= j < |s| - 1 ensures s[j].nodeId != last.nodeId {
          assert init[j].nodeId in Ids(init);
        }
      } else {
        var j :| 0 <= j < |init| && init[j].nodeId == last.nodeId;
        assert !FirstOccurrence(s, |s| - 1) by { assert s[j].nodeId == last.nodeId; }
      }
      forall i | 0 <= i < |s| - 1 && FirstOccurrence(s, i) ensures i in idx {
        assert FirstOccurrence(init, i);
      }
    }
  }

  /** Duplicates are dropped in favour of their first occurrence:
      [A, B, A', C, B'] becomes [A, B, C] when A and A', B and B' share ids. */
  lemma DeduplicatedExample(a: Node, b: Node, a': Node, c: Node, b': Node)
    requires a.nodeId == a'.nodeId && b.nodeId == b'.nodeId
    requires a.nodeId != b.nodeId && a.nodeId != c.nodeId && b.nodeId != c.nodeId
    ensures Deduplicated([a, b, a', c, b']) == [a, b, c]
  {
    var s := [a, b, a', c, b'];
    IdsSingleton(a); IdsSingleton(b); IdsSingleton(a'); IdsSingleton(c);
    IdsAppend([a], [b]);
    IdsAppend([a, b], [a']);
    IdsAppend([a, b, a'], [c]);
    assert s[..4] == [a, b, a', c] && s[..4][..3] == [a, b, a'];
    assert s[..4][..3][..2] == [a, b] && s[..4][..3][..2][..1] == [a];
    assert [a][..0] == [];
    assert Deduplicated([a]) == [a];
    assert [a, b][..1] == [a];
    assert Deduplicated([a, b]) == [a, b];
    assert [a, b, a'][..2] == [a, b];
    assert Deduplicated([a, b, a']) == [a, b];
    assert [a, b, a', c][..3] == [a, b, a'];
    assert Deduplicated([a, b, a', c]) == [a, b, c];
  }

  lemma IdsSingleton(n: Node)
    ensures Ids([n]) == {n.nodeId}
  {
    assert [n][0] == n;
  }

  /** `removeDuplicates`: a filter over the browse results that remembers
      the node ids it has met in a set and drops every element whose id it
      has met before. */
  method RemoveDuplicates(brRes: seq<Node>) returns (uniqueBrs: seq<Node>)
    ensures uniqueBrs == Deduplicated(brRes)
    ensures DistinctIds(uniqueBrs) && Ids(uniqueBrs) == Ids(brRes)
  {
    var encounteredSet: set<string> := {};
    uniqueBrs := [];
    for i := 0 to |brRes|
      invariant encounteredSet == Ids(brRes[..i])
      invariant uniqueBrs == Deduplicated(brRes[..i])
    {
      var val := brRes[i];
      assert brRes[..i + 1][..i] == brRes[..i];
      IdsAppend(brRes[..i], [val]);
      assert brRes[..i + 1] == brRes[..i] + [val];
      assert Ids([val]) == {val.nodeId};
      if val.nodeId !in encounteredSet {
        encounteredSet := encounteredSet + {val.nodeId};
        uniqueBrs := uniqueBrs + [val];
      }
    }
    assert brRes[..|brRes|] == brRes;
    DeduplicatedDistinct(brRes);
    DeduplicatedIds(brRes);
  }

  // ---------------------------------------------------------------------
  // Root node and browsing

  const StandardNamespace := "http://opcfoundation.org/UA/"

  /** The node-class mask used on the type hierarchy: ObjectType | Object. */
  const TypesMask: int := (NodeClassObjectType | NodeClassObject) as int

  /** `getRootNodeId`: the Objects folder when the configured root is
      `Objects`, the Types folder for every other value. */
  function RootNode(root: string): (r: Node)
    ensures r.nodeId == "i=85" <==> root == "Objects"
    ensures root == "Objects" ==> r.browseName.name == "Objects"
    ensures root != "Objects" ==> r.nodeId == "i=86" && r.browseName.name == "Types"
    ensures r.displayName == r.browseName.name && r.browseName.namespaceUrl == StandardNamespace
    ensures r.isForward && r.nodeClass == 1
  {
    if root == "Objects" then
      Node("i=85", QualifiedName("Objects", StandardNamespace), "Objects", true, NodeClassObject as int)
    else
      Node("i=86", QualifiedName("Types", StandardNamespace), "Types", true, NodeClassObject as int)
  }

  /** The `browse` handed to the tree. Without a data source it asks the
      host's registry for one and never settles. Otherwise it browses
      `parentId`: on the Types root with the ObjectType|Object mask and the
      reply as it came, on any other root without a mask and deduplicated. */
  function BrowseChildren(dataSource: Option<Backend>, dataSourceName: string, root: string, parentId: string)
    : (r: Traced<seq<Node>>)
    ensures dataSource.None? ==> r == Traced(Pending, [DataSourceLookupReq(dataSourceName)])
    ensures dataSource.Some? ==>
      && r.result.Resolved?
      && |r.calls| == 1 && r.calls[0].BrowseReq? && r.calls[0].nodeId == parentId
      && (r.calls[0].nodeClassMask.Some? <==> root == "Types")
      && (root == "Types" ==>
            r.calls[0].nodeClassMask == Some(9)
            && r.result.value == dataSource.value.browse(parentId, Some(9)))
      && (root != "Types" ==>
            var reply := dataSource.value.browse(parentId, None);
            && r.result.value == Deduplicated(reply)
            && DistinctIds(r.result.value) && Ids(r.result.value) == Ids(reply))
  {
    if dataSource.None? then
      Traced(Pending, [DataSourceLookupReq(dataSourceName)])
    else if root == "Types" then
      Traced(Resolved(dataSource.value.browse(parentId, Some(TypesMask))), [BrowseReq(parentId, Some(TypesMask))])
    else
      var reply := dataSource.value.browse(parentId, None);
      DeduplicatedDistinct(reply);
      DeduplicatedIds(reply);
      Traced(Resolved(Deduplicated(reply)), [BrowseReq(parentId, None)])
  }

  /** The root shown and the browse mask are chosen by different tests: a
      configured root that is neither `Objects` nor `Types` shows the Types
      folder, yet its children are browsed without the type mask and
      deduplicated. */
  lemma TypesFolderWithoutMask(dataSource: Option<Backend>, dataSourceName: string, root: string)
    requires dataSource.Some? && root != "Objects" && root != "Types"
    ensures RootNode(root) == RootNode("Types")
    ensures var r := BrowseChildren(dataSource, dataSourceName, root, RootNode(root).nodeId);
      r.calls == [BrowseReq("i=86", None)]
  {
  }

  /** `isNodePresentAtServer`: true only when the backend answers true;
      never settles without a data source. */
  function IsNodePresentAtServer(dataSource: Option<Backend>, nodeId: string): (r: Traced<bool>)
    ensures dataSource.None? ==> r == Traced(Pending, [])
    ensures dataSource.Some? ==>
      && r.calls == [NodePresentReq(nodeId)]
      && r.result.Resolved?
      && (r.result.value <==> dataSource.value.nodePresent(nodeId) == Some(true))
  {
    if dataSource.None? then Traced(Pending, [])
    else
      var res := dataSource.value.nodePresent(nodeId);
      Traced(Resolved(res.Some? && res.value), [NodePresentReq(nodeId)])
  }

  /** `browseReferenceTargets`: the targets of `referenceId` from `nodeId`,
      the empty list for a falsy reply; never settles without a data source. */
  function BrowseReferenceTargets(dataSource: Option<Backend>, nodeId: string, referenceId: string)
    : (r: Traced<seq<Node>>)
    ensures dataSource.None? ==> r == Traced(Pending, [])
    ensures dataSource.Some? ==>
      var reply := dataSource.value.referenceTargets(nodeId, referenceId);
      && r.calls == [ReferenceTargetsReq(nodeId, referenceId)]
      && r.result.Resolved?
      && (reply.Some? ==> r.result.value == reply.value)
      && (reply.None? ==> r.result.value == [])
  {
    if dataSource.None? then Traced(Pending, [])
    else
      Traced(Resolved(OrEmpty(dataSource.value.referenceTargets(nodeId, referenceId))),
             [ReferenceTargetsReq(nodeId, referenceId)])
  }

  /** `getNamespaces`: the namespace table, the empty list for a falsy
      reply; never settles without a data source. */
  function GetNamespaces(dataSource: Option<Backend>): (r: Traced<seq<string>>)
    ensures dataSource.None? ==> r == Traced(Pending, [])
    ensures dataSource.Some? ==>
      && r.calls == [NamespacesReq]
      && r.result.Resolved?
      && (dataSource.value.namespaces.Some? ==> r.result.value == dataSource.value.namespaces.value)
      && (dataSource.value.namespaces.None? ==> r.result.value == [])
  {
    if dataSource.None? then Traced(Pending, [])
    else Traced(Resolved(OrEmpty(dataSource.value.namespaces)), [NamespacesReq])
  }

  // ---------------------------------------------------------------------
  // Capabilities collected in configuration mode

  /** HasTypeDefinition. */
  const TypeDefinitionRef := "i=40"
  /** HasInterface. */
  const HasInterfaceRef := "i=17603"
  /** ISA-95 DefinedByEquipmentClass, as the JSON node id the backend expects. */
  const DefinedByEquipmentClassRef :=
    "{\"namespaceUrl\":\"http://www.OPCFoundation.org/UA/2013/01/ISA95\",\"id\":\"i=4919\"}"

  /** The targets of `referenceId` that configuration mode collects: none
      unless the presence probe for the reference type answered true. */
  function GatedTargets(backend: Backend, nodeId: string, referenceId: string): seq<Node>
  {
    if backend.nodePresent(referenceId) == Some(true)
    then OrEmpty(backend.referenceTargets(nodeId, referenceId))
    else []
  }

  /** One probe, followed by a fetch of the reference targets only when the
      probe answered true. */
  function ProbeThenBrowse(backend: Backend, nodeId: string, referenceId: string): (r: Traced<seq<Node>>)
    ensures r.result == Resolved(GatedTargets(backend, nodeId, referenceId))
    ensures backend.nodePresent(referenceId) == Some(true) ==>
      r.calls == [NodePresentReq(referenceId), ReferenceTargetsReq(nodeId, referenceId)]
    ensures backend.nodePresent(referenceId) != Some(true) ==>
      r.calls == [NodePresentReq(referenceId)]
  {
    var probe := IsNodePresentAtServer(Some(backend), referenceId);
    if probe.result.value then
      var found := BrowseReferenceTargets(Some(backend), nodeId, referenceId);
      Traced(found.result, probe.calls + found.calls)
    else
      Traced(Resolved([]), probe.calls)
  }

  /** The interface list built in configuration mode: the HasInterface
      targets followed by the ISA-95 equipment-class targets, each fetched
      only when its probe answered true. */
  function Capabilities(backend: Backend, nodeId: string): (r: Traced<seq<Node>>)
    ensures r.result == Resolved(GatedTargets(backend, nodeId, HasInterfaceRef)
                                 + GatedTargets(backend, nodeId, DefinedByEquipmentClassRef))
    ensures ReferenceTargetsReq(nodeId, HasInterfaceRef) in r.calls
            <==> backend.nodePresent(HasInterfaceRef) == Some(true)
    ensures ReferenceTargetsReq(nodeId, DefinedByEquipmentClassRef) in r.calls
            <==> backend.nodePresent(DefinedByEquipmentClassRef) == Some(true)
    ensures r.calls == [NodePresentReq(HasInterfaceRef)]
                       + (if backend.nodePresent(HasInterfaceRef) == Some(true)
                          then [ReferenceTargetsReq(nodeId, HasInterfaceRef)] else [])
                       + [NodePresentReq(DefinedByEquipmentClassRef)]
                       + (if backend.nodePresent(DefinedByEquipmentClassRef) == Some(true)
                          then [ReferenceTargetsReq(nodeId, DefinedByEquipmentClassRef)] else [])
  {
    var interfaces := ProbeThenBrowse(backend, nodeId, HasInterfaceRef);
    var eqClasses := ProbeThenBrowse(backend, nodeId, DefinedByEquipmentClassRef);
    Traced(Resolved(interfaces.result.value + eqClasses.result.value), interfaces.calls + eqClasses.calls)
  }

  /** The configuration-mode part of `nodeSelectedChanged`: probe for
      HasInterface and, if present, push its targets one by one onto the
      list; then the same for the ISA-95 equipment class. Returns the list
      and the calls made. */
  method CollectInterfaces(backend: Backend, nodeId: string) returns (interfaceList: seq<Node>, made: seq<Request>)
    ensures interfaceList == Capabilities(backend, nodeId).result.value
    ensures made == Capabilities(backend, nodeId).calls
  {
    interfaceList, made := [], [];
    var ifacesExist := IsNodePresentAtServer(Some(backend), HasInterfaceRef);
    made := made + ifacesExist.calls;
    if ifacesExist.result.value {
      var found := BrowseReferenceTargets(Some(backend), nodeId, HasInterfaceRef);
      made := made + found.calls;
      var ifaces := found.result.value;
      for i := 0 to |ifaces|
        invariant interfaceList == ifaces[..i]
      {
        interfaceList := interfaceList + [ifaces[i]];
      }
      assert ifaces[..|ifaces|] == ifaces;
    }
    ghost var fromInterfaces := interfaceList;
    assert fromInterfaces == GatedTargets(backend, nodeId, HasInterfaceRef);
    var eqClassExist := IsNodePresentAtServer(Some(backend), DefinedByEquipmentClassRef);
    made := made + eqClassExist.calls;
    if eqClassExist.result.value {
      var found := BrowseReferenceTargets(Some(backend), nodeId, DefinedByEquipmentClassRef);
      made := made + found.calls;
      var eqClasses := found.result.value;
      for i := 0 to |eqClasses|
        invariant interfaceList == fromInterfaces + eqClasses[..i]
      {
        interfaceList := interfaceList + [eqClasses[i]];
      }
      assert eqClasses[..|eqClasses|] == eqClasses;
    }
  }

  // ---------------------------------------------------------------------
  // The panel component

  /** What the panel is configured with: `root` and `configMode` come from
      its options, `dataSourceName` from the data source of its first query
      target. */
  datatype PanelOptions = PanelOptions(root: string, configMode: bool, dataSourceName: string)

  /** A merge-update of the shared query parameters. */
  datatype LocationUpdate = LocationUpdate(
    instanceDisplayName: string,
    objectId: string,
    dashboardUrl: Option<string>,
    partial: bool,
    replace: bool)

  /** The URL of a resolved dashboard, absent when none was resolved. */
  function DashboardUrl(d: Option<DashboardData>): Option<string>
  {
    if d.Some? then Some(d.value.url) else None
  }

  class UaBrowserPanel {
    var selectedNode: Option<Node>
    var selectedNodeType: Option<Node>
    var browsePath: Option<seq<QualifiedName>>
    var dataSource: Option<Backend>
    var mappedDashboard: Option<DashboardData>
    var interfaces: Option<seq<Node>>
    /** Every outbound call made so far, in order. */
    var calls: seq<Request>
    /** Every location update sent so far, in order. */
    var locationUpdates: seq<LocationUpdate>

    /** A stored selection always comes with its browse path, and the last
        location update describes it and its dashboard. */
    ghost predicate Valid()
      reads this
    {
      && (selectedNode.Some? <==> browsePath.Some?)
      && (mappedDashboard.Some? ==> selectedNode.Some?)
      && (selectedNode.Some? ==>
            && |locationUpdates| > 0
            && var last := locationUpdates[|locationUpdates| - 1];
            && last.objectId == selectedNode.value.nodeId
            && last.instanceDisplayName == selectedNode.value.displayName
            && last.dashboardUrl == DashboardUrl(mappedDashboard)
            && last.partial && last.replace)
    }

    constructor ()
      ensures Valid()
      ensures selectedNode.None? && selectedNodeType.None? && browsePath.None?
      ensures dataSource.None? && mappedDashboard.None? && interfaces.None?
      ensures calls == [] && locationUpdates == []
    {
      selectedNode, selectedNodeType, browsePath := None, None, None;
      dataSource, mappedDashboard, interfaces := None, None, None;
      calls, locationUpdates := [], [];
    }

    /** The host's registry answered the data-source lookup. */
    method DataSourceArrived(handle: Backend)
      requires Valid()
      modifies this`dataSource
      ensures Valid() && dataSource == Some(handle)
    {
      dataSource := Some(handle);
    }

    /** `browse` as the tree calls it: the outcome of `BrowseChildren` on the
        current data source, with its calls recorded. */
    method Browse(parentId: string, options: PanelOptions) returns (r: Promise<seq<Node>>)
      requires Valid()
      modifies this`calls
      ensures Valid()
      ensures var t := BrowseChildren(dataSource, options.dataSourceName, options.root, parentId);
        r == t.result && calls == old(calls) + t.calls
    {
      var t := BrowseChildren(dataSource, options.dataSourceName, options.root, parentId);
      calls := calls + t.calls;
      r := t.result;
    }

    /** `nodeSelectedChanged`. Without a data source its first await never
        settles and nothing changes. Otherwise: the type is the first
        HasTypeDefinition target (or cleared), the dashboard is resolved and
        announced in a location update, the selection is stored, and in
        configuration mode the interface list is rebuilt from the probed
        capability targets. */
    method NodeSelectedChanged(node: Node, browsepath: seq<QualifiedName>, options: PanelOptions, host: Host)
      requires Valid()
      modifies this
      ensures Valid()
      ensures dataSource == old(dataSource)
      ensures old(dataSource).None? ==>
        && selectedNode == old(selectedNode) && selectedNodeType == old(selectedNodeType)
        && browsePath == old(browsePath) && mappedDashboard == old(mappedDashboard)
        && interfaces == old(interfaces) && calls == old(calls)
        && locationUpdates == old(locationUpdates)
      ensures old(dataSource).Some? ==>
        var types := OrEmpty(dataSource.value.referenceTargets(node.nodeId, TypeDefinitionRef));
        var dash := DashboardResolver.GetDashboard(node.nodeId, dataSource, host);
        var caps := Capabilities(dataSource.value, node.nodeId);
        && selectedNodeType == (if |types| > 0 then Some(types[0]) else None)
        && selectedNode == Some(node) && browsePath == Some(browsepath)
        && mappedDashboard == dash.result.value
        && locationUpdates == old(locationUpdates)
             + [LocationUpdate(node.displayName, node.nodeId, DashboardUrl(dash.result.value), true, true)]
        && interfaces == (if options.configMode then Some(caps.result.value) else old(interfaces))
        && calls == old(calls) + [ReferenceTargetsReq(node.nodeId, TypeDefinitionRef)] + dash.calls
             + (if options.configMode then caps.calls else [])
    {
      if dataSource.None? {
        return;
      }
      LookUpType(node);
      ShowDashboard(node, browsepath, host);
      if options.configMode {
        UpdateInterfaces(node);
      }
    }

    /** The first step of `nodeSelectedChanged`: the node's type becomes
        its first HasTypeDefinition target, and is cleared when there is
        none. */
    method LookUpType(node: Node)
      requires dataSource.Some?
      modifies this`selectedNodeType, this`calls
      ensures var types := OrEmpty(dataSource.value.referenceTargets(node.nodeId, TypeDefinitionRef));
        && selectedNodeType == (if |types| > 0 then Some(types[0]) else None)
        && calls == old(calls) + [ReferenceTargetsReq(node.nodeId, TypeDefinitionRef)]
    {
      var typeLookup := BrowseReferenceTargets(dataSource, node.nodeId, TypeDefinitionRef);
      calls := calls + typeLookup.calls;
      var browseTypes := typeLookup.result.value;
      if |browseTypes| > 0 {
        selectedNodeType := Some(browseTypes[0]);
      } else if selectedNodeType.Some? {
        selectedNodeType := None;
      }
    }

    /** The second step of `nodeSelectedChanged`: the dashboard is resolved,
        announced in one merge-update of the query parameters, and stored
        with the selection. */
    method ShowDashboard(node: Node, browsepath: seq<QualifiedName>, host: Host)
      requires Valid() && dataSource.Some?
      modifies this`selectedNode, this`browsePath, this`mappedDashboard, this`calls, this`locationUpdates
      ensures Valid()
      ensures var dash := DashboardResolver.GetDashboard(node.nodeId, dataSource, host);
        && selectedNode == Some(node) && browsePath == Some(browsepath)
        && mappedDashboard == dash.result.value
        && locationUpdates == old(locationUpdates)
             + [LocationUpdate(node.displayName, node.nodeId, DashboardUrl(dash.result.value), true, true)]
        && calls == old(calls) + dash.calls
    {
      var dash := DashboardResolver.GetDashboard(node.nodeId, dataSource, host);
      calls := calls + dash.calls;
      var mapped := dash.result.value;
      locationUpdates := locationUpdates
        + [LocationUpdate(node.displayName, node.nodeId, DashboardUrl(mapped), true, true)];
      selectedNode, browsePath, mappedDashboard := Some(node), Some(browsepath), mapped;
    }

    /** The configuration-mode step of `nodeSelectedChanged`: the interface
        list is replaced by the probed capability targets. */
    method UpdateInterfaces(node: Node)
      requires dataSource.Some?
      modifies this`interfaces, this`calls
      ensures var caps := Capabilities(dataSource.value, node.nodeId);
        interfaces == Some(caps.result.value) && calls == old(calls) + caps.calls
    {
      var interfaceList, made := CollectInterfaces(dataSource.value, node.nodeId);
      calls := calls + made;
      interfaces := Some(interfaceList);
    }
  }
}
